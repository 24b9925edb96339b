# Service marketplace core, modelled in Dafny

A model of the back end of a marketplace where clients post service
requests, providers answer them with quotes priced inside the bounds a
pricing model suggests, and clients accept quotes, see them done and review
the providers. The model covers:

- the request, quote and review services over the relational store
  (`Session.Database`, one object whose tables the service methods update),
  with the schema's primary keys, foreign keys and unique columns as its
  invariant, and a commit that would break a foreign key or a unique column,
  or store a text longer than its `String(n)` column, failing as a whole;
- the Supabase variants of these three services over a remote store
  (`SupabaseStore.BancoRemoto`), including what a remote failure part-way
  through a call leaves behind;
- the guards and client-facing projections of the quote endpoints, and the
  quote schemas;
- registration and login of clients, providers and users, with the 72-byte
  password cut of bcrypt;
- key handling: the 32-byte symmetric key and its base64url text, the cached
  RSA key pair, the wrapping of decryption failures, and access tokens;
- the e-mail, phone and CPF validators, with the language of each pattern
  stated as a predicate;
- the in-memory test doubles of the database and pricing ports;
- the legacy spreadsheet store of quotes and the dashboard aggregations
  computed from it;
- the text normalisation and data merge of the training script.

Every module is one source file. `Wrappers` (Option/Result), `Ordering`
(sorted selection and first match over a keyed table) and `Utf8Codec`
(UTF-8 encoding of text) are shared helpers. Functions that the source only
computes are specified by lemmas beside them. Loops and state changes are
methods, proved against those functions.

The pricing model, password hasher and verifier, RSA, Fernet and the JWT
signature appear as function-typed parameters. So do the clock and the salt
a hasher would draw. A remote request that raises is a parameter naming
which request fails.

## Model

| member | source | states |
|---|---|---|
| Adapters.Mesclar | backend/api/v1/core/adapters.py:155 | `{"id": …, **data}`: the keys of both records, with the caller's value winning on a shared key |
| Adapters.FakeDatabaseAdapter.constructor | backend/api/v1/core/adapters.py:146-150 | all three tables empty and the id counter at 1 |
| Adapters.FakeDatabaseAdapter.CreateUser | backend/api/v1/core/adapters.py:152-158 | the user gets the next id (one counter shared by the three tables), is stored under it, and the counter advances by one; nothing stored before is overwritten |
| Adapters.FakeDatabaseAdapter.GetUserByEmail | backend/api/v1/core/adapters.py:160-165 | `None` exactly when no stored user has that e-mail; otherwise a stored user with that e-mail, the one with the smallest id (dictionary insertion order) |
| Adapters.FakeDatabaseAdapter.GetUserById | backend/api/v1/core/adapters.py:167-169 | present exactly when the id is stored, and then the stored user |
| Adapters.FakeDatabaseAdapter.CreateSolicitacao | backend/api/v1/core/adapters.py:171-177 | a request gets the next id and status "aguardando_orcamentos" unless the data gives its own status; counter advances by one |
| Adapters.FakeDatabaseAdapter.GetSolicitacaoById | backend/api/v1/core/adapters.py:179-181 | present exactly when the id is stored, and then the stored request |
| Adapters.FakeDatabaseAdapter.CreateOrcamento | backend/api/v1/core/adapters.py:183-189 | a quote gets the next id and status "aguardando" unless the data gives its own; counter advances by one |
| Adapters.FakeDatabaseAdapter.GetOrcamentoById | backend/api/v1/core/adapters.py:191-193 | present exactly when the id is stored, and then the stored quote |
| Adapters.FakeDatabaseAdapter.UpdateOrcamentoStatus | backend/api/v1/core/adapters.py:195-200 | true exactly when the quote exists; then only its "status" entry changes, otherwise nothing changes |
| Adapters.FakeDatabaseAdapter.Clear | backend/api/v1/core/adapters.py:202-207 | every table emptied and the counter reset to 1 |
| Adapters.CalcularLimitesFake | backend/api/v1/core/adapters.py:221-235 | minimum <= suggested <= maximum, and the predicted category is "Serviços Gerais" |
| Adapters.FakeIndependeDaEntrada | backend/api/v1/core/adapters.py:221-235 | the fake limits do not depend on category, description or location |
| Adapters.FakeAceitaEntre | backend/api/v1/core/adapters.py:221-235 | with the fake limits, a quote value passes the price check exactly when 350 <= value <= 750 |
| Ordering.SelectSorted | backend/api/v1/services/orcamento_service.py:70-72 | a `filter(...).order_by(...).all()` query: exactly the stored rows that pass the filter, each once, in ascending order of the sort key |
| Ordering.FirstMatch | backend/api/v1/services/solicitacao_service.py:106-109 | a `filter(...).first()` query: `None` exactly when no row passes; otherwise the smallest id of a row that passes |
| DbModels.ParseStatusSolicitacao | backend/api/v1/models/db_models.py:14-18 | a text is parsed to a request status exactly when it is that status's enumeration value ("aguardando_orcamentos", "com_orcamentos", "fechada", "cancelada") |
| DbModels.ParseStatusOrcamento | backend/api/v1/models/db_models.py:20-24 | a text is parsed to a quote status exactly when it is that status's enumeration value ("aguardando", "aceito", "recusado", "realizado") |
| DbModels.StatusSolicitacaoInicial | backend/api/v1/models/db_models.py:84-89 | a new request's status is the one given, or "aguardando_orcamentos" by default |
| DbModels.StatusOrcamentoInicial | backend/api/v1/models/db_models.py:119-124 | a new quote's status is the one given, or "aguardando" by default |
| DbModels.NaColuna | backend/api/v1/models/db_models.py:32 | storing a text in a `String(n)` (PostgreSQL `varchar(n)`) column succeeds exactly when nothing past the n-th character is other than a space; the stored text is then a prefix of the given one, the whole text when it fits, else its first n characters, and only spaces are lost |
| DbModels.NaColunaOpcional | backend/api/v1/models/db_models.py:35 | a nullable column stores NULL as NULL and a text as `NaColuna` does, failing exactly when that text does not fit; a text that fits is stored unchanged |
| DbModels.NaColunaEstavel | backend/api/v1/models/db_models.py:32 | a stored text fits its column again unchanged |
| Session.Database.constructor | backend/api/v1/models/db_models.py:28-147 | an empty database (every table empty) satisfies the schema invariant: keys are ids; every request names a stored client; every quote a stored request and provider; every review a stored quote, client and provider; unique columns are unique |
| Utf8Codec.CodificarChar | backend/api/v1/services/auth_service.py:17 | one code point takes 1 to 4 bytes, and its first byte announces how many |
| Utf8Codec.DecodificaCodificado | backend/api/v1/services/auth_service.py:17 | decoding the bytes of one code point gives it back |
| Utf8Codec.CodificacaoInjetiva | backend/api/v1/services/auth_service.py:17 | two code points with the same bytes are equal |
| Utf8Codec.Utf8 | backend/api/v1/services/auth_service.py:17 | `str.encode('utf-8')`: at least one byte per character, empty exactly for the empty text |
| Utf8Codec.Utf8Concat | backend/api/v1/services/auth_service.py:17 | encoding distributes over concatenation |
| OrcamentoSchemas.ValidarValorPositivo | backend/api/v1/schemas/orcamentos.py:19-23 | the proposed value is accepted and returned unchanged exactly when it is > 0; otherwise the error "Valor proposto deve ser maior que zero" |
| OrcamentoSchemas.ValidarOrcamentoCreate | backend/api/v1/schemas/orcamentos.py:16-23 | a quote body validates exactly when its proposed value is > 0, and then passes through unchanged |
| AuthService.Corte | backend/api/v1/services/auth_service.py:19 | `senha_bytes[:72]`: the first `min(len, 72)` bytes, a prefix of the input |
| AuthService.PrefixoQueCabeCorreto | backend/api/v1/services/auth_service.py:19 | `decode('utf-8', errors='ignore')` of the cut bytes: the longest character prefix whose encoding fits the limit; its bytes are a prefix of the text's bytes, the next character would not fit, and a text that fits is kept whole |
| AuthService.PrefixoDeterminado | backend/api/v1/services/auth_service.py:19 | texts whose first n bytes agree keep the same character prefix |
| AuthService.Truncar | backend/api/v1/services/auth_service.py:16-19 | a password of at most 72 UTF-8 bytes is unchanged; a longer one becomes its longest character prefix of at most 72 bytes (a partial final character is dropped) |
| AuthService.SenhaCurtaInalterada | backend/api/v1/services/auth_service.py:14-29 | for a password of at most 72 bytes, hashing and verifying see the password unchanged |
| AuthService.SenhasIntercambiaveis | backend/api/v1/services/auth_service.py:14-29 | two passwords whose first 72 bytes agree give the same hash (same salt) and the same verification result |
| AuthService.LinhaCliente | backend/api/v1/models/db_models.py:28-37 | the client row exists exactly when the name, e-mail, password hash, phone and CPF fit their `String(100)`, `String(100)`, `String(255)`, `String(20)` and `String(255)` columns; each text is then stored as its column stores it; when all fit, the row holds the given values, the next id and rating 0 |
| AuthService.LinhaPrestador | backend/api/v1/models/db_models.py:49-62 | the same for a provider row, with its CPF/CNPJ, categories and regions |
| AuthService.CriarCliente | backend/api/v1/services/auth_service.py:33-46 | a data error when a text does not fit its column; otherwise an integrity error exactly when another client already has the stored e-mail (unique column); every failure changes nothing; otherwise stores the client row (next id, truncated-password hash, rating 0) under that id |
| AuthService.CriarPrestador | backend/api/v1/services/auth_service.py:67-82 | same as for clients, for providers with their categories and regions: a data error for a text too long for its column, an integrity error for a taken e-mail, both changing nothing |
| AuthService.AutenticarCliente | backend/api/v1/services/auth_service.py:48-55 | a client comes back exactly when one with that e-mail exists and the password verifies against its hash |
| AuthService.AutenticarPrestador | backend/api/v1/services/auth_service.py:84-91 | a provider comes back exactly when one with that e-mail exists and the password verifies against its hash |
| AuthService.BuscarClientePorId | backend/api/v1/services/auth_service.py:57-59 | present exactly when a client has that id, and then it is that client |
| AuthService.BuscarClientePorEmail | backend/api/v1/services/auth_service.py:61-63 | `None` exactly when no client has that e-mail; otherwise the one client that has it |
| AuthService.BuscarPrestadorPorId | backend/api/v1/services/auth_service.py:93-95 | present exactly when a provider has that id, and then it is that provider |
| AuthService.BuscarPrestadorPorEmail | backend/api/v1/services/auth_service.py:97-99 | `None` exactly when no provider has that e-mail; otherwise the one provider that has it |
| UserService.SubstituicaoPreservaUnicos | backend/api/v1/services/user_service.py:56-77 | replacing a user by one whose username and e-mail no other user holds keeps both columns unique |
| UserService.ProprioNaoEDeOutro | backend/api/v1/services/user_service.py:58-61 | under unique columns, a user's own username and e-mail are held by no other user (the `User.id != user_id` filter) |
| UserService.UsernameTomado | backend/api/v1/services/user_service.py:58-62 | true exactly when another user (other id) has that username |
| UserService.EmailTomado | backend/api/v1/services/user_service.py:68-72 | true exactly when another user (other id) has that e-mail |
| UserService.GetUserByUsername | backend/api/v1/services/user_service.py:29-32 | `None` exactly when no user has that username; otherwise the one user that has it |
| UserService.GetUserByEmail | backend/api/v1/services/user_service.py:34-37 | `None` exactly when no user has that e-mail; otherwise the one user that has it |
| UserService.CreateUser | backend/api/v1/services/user_service.py:7-27 | "Username already registered" exactly when the username is in use; else "Email already registered" exactly when the e-mail is; success exactly when neither is in use; errors change nothing; on success the user is stored with the next id and the hashed password, and usernames and e-mails stay unique |
| UserService.AuthenticateUser | backend/api/v1/services/user_service.py:39-47 | a user comes back exactly when one with that username exists and the password verifies against its hash |
| UserService.Atualizado | backend/api/v1/services/user_service.py:56-77 | each field given non-empty replaces the old one (the password by its hash); empty or missing fields keep the old value; the id never changes |
| UserService.UpdateUser | backend/api/v1/services/user_service.py:49-81 | "User not found" exactly when the id is absent; "Username already taken" exactly when a non-empty new username belongs to another user; "Email already taken" likewise, checked after the username; success exactly when none of these holds; errors change nothing; on success only that user changes, and uniqueness is kept |
| Security.ChaveBruta | backend/api/v1/core/security.py:78-82 | the key is always 32 bytes: a shorter one padded with b'0', a longer one cut to its first 32 bytes |
| Security.ValorDoSimbolo | backend/api/v1/core/security.py:83 | each 6-bit value has its own URL-safe base64 symbol, which is not the padding '=' |
| Security.Base64Url | backend/api/v1/core/security.py:83 | `urlsafe_b64encode`: 4 symbols per started group of 3 bytes |
| Security.GrupoDeTres | backend/api/v1/core/security.py:83 | a full group of 3 bytes decodes back to itself |
| Security.GrupoDeUm | backend/api/v1/core/security.py:83 | a final group of 1 byte ("xx==") decodes back to itself |
| Security.GrupoDeDois | backend/api/v1/core/security.py:83 | a final group of 2 bytes ("xxx=") decodes back to itself |
| Security.Base64UrlIda | backend/api/v1/core/security.py:83 | decoding undoes the encoding for every byte string |
| Security.ChaveDeCriptografia | backend/api/v1/core/security.py:76-83 | `get_encryption_key`: 44 symbols that decode to the 32-byte key derived from the configured text |
| Security.ChaveLongaAscii | backend/api/v1/core/security.py:78-82 | a configured ASCII key of 32 or more characters is its first 32 characters |
| Security.Utf8Ascii | backend/api/v1/core/security.py:78 | ASCII text takes one byte per character |
| Security.ChavesRsa.constructor | backend/api/v1/core/security.py:28-29 | no key pair yet |
| Security.ChavesRsa.GerarChaves | backend/api/v1/core/security.py:31-47 | the first call draws the pair and stores it with its PEM text; every later call changes nothing and returns the stored pair |
| Security.ChavesRsa.ChavePublicaPem | backend/api/v1/core/security.py:52-58 | the stored PEM text, generating the pair first when there is none |
| Security.ChavesRsa.DescriptografarSenha | backend/api/v1/core/security.py:60-73 | when no pair is stored, stores the drawn private key and its PEM text, otherwise changes nothing; the plaintext when decryption with the stored private key succeeds; otherwise the error "Erro ao descriptografar senha: " followed by the cause |
| Security.DuasChamadasMesmaChave | backend/api/v1/core/security.py:31-47 | two successive calls return the same private key: the one already stored, or the first one drawn |
| Security.Duracao | backend/api/v1/core/security.py:86-94 | the lifetime is the given one unless absent or zero, and otherwise the configured number of minutes in seconds |
| Security.ClaimsDoToken | backend/api/v1/core/security.py:85-95 | claims are exactly "exp" and "sub"; "sub" is the subject; "exp" is now plus the given duration, or plus the configured `ACCESS_TOKEN_EXPIRE_MINUTES` (a parameter, 30 when the environment does not set it) when none or a zero one is given |
| Security.CriarToken | backend/api/v1/core/security.py:85-97 | the token is the encoding of exactly two claims: the subject and the expiry now plus the chosen lifetime |
| Security.VerificarToken | backend/api/v1/core/security.py:122-131 | the "sub" claim when the token decodes and carries one; `None` otherwise |
| Security.TokenDevolveSujeito | backend/api/v1/core/security.py:85-131 | with a decoder that inverts the encoder and rejects expired tokens, verifying a created token gives its subject back until it expires, and `None` after |
| SolicitacaoService.LinhaSolicitacao | backend/api/v1/models/db_models.py:74-90 | the request row exists exactly when the category, location and desired deadline fit their `String(100)`, `String(255)` and `String(100)` columns; it then has the next id, the client, the description and extra information as given, status "aguardando_orcamentos" and the creation time; when all fit, every field is as submitted |
| SolicitacaoService.CriarSolicitacao | backend/api/v1/services/solicitacao_service.py:9-27 | a data error when a text does not fit its column; otherwise an integrity error exactly when no client has that id (`cliente_id` foreign key); failures change nothing; on success the request row is stored under the next id and nothing else changes |
| SolicitacaoService.ListarSolicitacoesCliente | backend/api/v1/services/solicitacao_service.py:29-33 | exactly the client's stored requests, each once, newest first |
| SolicitacaoService.BuscarSolicitacao | backend/api/v1/services/solicitacao_service.py:35-37 | `None` exactly when the id is not stored; otherwise the request with that id |
| SolicitacaoService.ListarSolicitacoesDisponiveis | backend/api/v1/services/solicitacao_service.py:39-64 | exactly the stored requests whose category is one of the provider's and whose status is "aguardando_orcamentos" or "com_orcamentos", each once, newest first; an empty category list gives none |
| SolicitacaoService.AtualizarStatusSolicitacao | backend/api/v1/services/solicitacao_service.py:66-77 | `None` and no change when the id is absent; otherwise only that request's status changes, to the new one, from any status |
| SolicitacaoService.CancelarSolicitacao | backend/api/v1/services/solicitacao_service.py:79-87 | true exactly when the request exists and belongs to the client; then its status becomes "cancelada", from any status; otherwise nothing changes |
| SolicitacaoService.SemOrcamentosDe | backend/api/v1/services/solicitacao_service.py:118-120 | the bulk delete keeps exactly the quotes of other requests, unchanged |
| SolicitacaoService.DeletarSolicitacao | backend/api/v1/services/solicitacao_service.py:89-125 | `false` for an absent request; 403 for another client's request; 400 when one of its quotes is accepted; otherwise, when a review names one of its quotes, the commit fails on that review's foreign key; deletion happens exactly when none of these holds, and removes the request and all its quotes and nothing else; no change on any failure |
| OrcamentoService.ForaDosLimites | backend/api/v1/services/orcamento_service.py:20-35 | no error exactly when minimum <= value <= maximum; a value under the minimum is reported as below the minimum (checked first, whatever the maximum); a value at or above the minimum and over the maximum as above the maximum; every error is a 400 |
| OrcamentoService.LinhaOrcamento | backend/api/v1/models/db_models.py:101-125 | the quote row exists exactly when the delivery time fits its `String(100)` column; it holds the model's three bounds, the proposed value, the stored delivery time, the notes and conditions as given and status "aguardando"; a delivery time that fits is kept as given |
| OrcamentoService.CriarOrcamento | backend/api/v1/services/orcamento_service.py:10-63 | a value outside the model's limits is refused; then a delivery time too long for its column is a data error, and a request or provider that does not exist fails the commit (foreign key); success exactly when none of these happens; failures change nothing; on success the quote is stored under the next id with the limits, the submitted fields and status "aguardando", and an "aguardando_orcamentos" request moves to "com_orcamentos" (other statuses untouched) |
| OrcamentoService.ListarOrcamentosSolicitacao | backend/api/v1/services/orcamento_service.py:65-72 | exactly the request's stored quotes, each once, cheapest first |
| OrcamentoService.ListarOrcamentosPrestador | backend/api/v1/services/orcamento_service.py:74-81 | exactly the provider's stored quotes, each once, newest first |
| OrcamentoService.BuscarOrcamento | backend/api/v1/services/orcamento_service.py:83-88 | `None` exactly when the id is not stored; otherwise the quote with that id |
| OrcamentoService.RecusarDemais | backend/api/v1/services/orcamento_service.py:113-119 | every other quote of the same request becomes "recusado"; the accepted quote and the quotes of other requests are unchanged |
| OrcamentoService.UnicoAceito | backend/api/v1/services/orcamento_service.py:109-119 | after accepting one quote and refusing its siblings, it is the only accepted quote of its request |
| OrcamentoService.AceitarOrcamento | backend/api/v1/services/orcamento_service.py:90-126 | `None` for an absent quote; 403 when the request is not the client's; a stored quote of the client's request is always accepted: from any status it becomes "aceito", its siblings "recusado", the request "com_orcamentos", and it is the request's only accepted quote; quotes of other requests are unchanged |
| OrcamentoService.MarcarRealizado | backend/api/v1/services/orcamento_service.py:129-151 | `None` for an absent quote; 403 for another provider's; 400 unless it is "aceito"; an accepted quote of that provider always becomes "realizado" and its request "fechada"; no change on failure |
| OrcamentoService.DeletarOrcamento | backend/api/v1/services/orcamento_service.py:154-197 | `false` for an absent quote; 403 for another provider's; 400 unless it is "aguardando"; otherwise a reviewed quote fails the commit on the review's foreign key; deletion happens exactly when none of these holds; then only it is deleted, and when its request has no quotes left and is "com_orcamentos" the request returns to "aguardando_orcamentos"; no change on failure |
| AvaliacaoService.Media | backend/api/v1/services/avaliacao_service.py:53-55 | `float(avg(...) or 0)`: 0 for no ratings, otherwise the value that times the count gives the sum |
| AvaliacaoService.EstrelasDeAppend | backend/api/v1/services/avaliacao_service.py:43-44 | a new review adds its stars to its own provider's ratings and to nobody else's |
| AvaliacaoService.SomaLimitada | backend/api/v1/schemas/avaliacoes.py:10 | ratings of 1 to 5 stars sum to between n and 5n |
| AvaliacaoService.EstrelasDeLimitadas | backend/api/v1/schemas/avaliacoes.py:10 | when every review has 1 to 5 stars, so has every rating of one provider |
| AvaliacaoService.MediaLimitada | backend/api/v1/services/avaliacao_service.py:53-55 | the mean of ratings of 1 to 5 stars lies between 1 and 5 |
| AvaliacaoService.ObterMediaPrestador | backend/api/v1/services/avaliacao_service.py:52-55 | 0 for a provider without reviews; otherwise the mean of its stars, between 1 and 5 when every review has 1 to 5 stars |
| AvaliacaoService.AtualizarMediaPrestador | backend/api/v1/services/avaliacao_service.py:42-49 | a stored provider's rating becomes the mean of its reviews and nothing else changes; an absent provider changes nothing |
| AvaliacaoService.Inserir | backend/api/v1/services/avaliacao_service.py:25-37 | a review whose quote, client and provider are stored is appended under the next id, the schema invariant is kept, and its provider's rating becomes the mean of its stars with the new one |
| AvaliacaoService.CriarAvaliacao | backend/api/v1/services/avaliacao_service.py:11-39 | "Este orçamento já foi avaliado" exactly when the quote already has a review; otherwise an unknown quote, client or provider fails the commit (foreign keys); success exactly when neither holds; failures change nothing; on success the review is appended under the next id and its provider's rating becomes the mean including the new stars |
| AvaliacaoServiceSupabase.ObterMediaPrestador | backend/api/v1/services/avaliacao_service_supabase.py:40-52 | 0 when the remote query fails or the provider has no reviews; otherwise the mean of its stars |
| AvaliacaoServiceSupabase.ContarAvaliacoesPrestador | backend/api/v1/services/avaliacao_service_supabase.py:54-61 | 0 exactly when the query fails or no review names the provider; never more than the number of reviews |
| AvaliacaoServiceSupabase.SemEstrelas | backend/api/v1/services/avaliacao_service_supabase.py:44-49 | a provider has no ratings exactly when no review names it |
| AvaliacaoServiceSupabase.MediaZeroSemAvaliacoes | backend/api/v1/services/avaliacao_service_supabase.py:40-61 | with ratings of 1 to 5 stars, the mean is 0 exactly when the count is 0 |
| AvaliacaoServiceSupabase.AtualizarMediaPrestador | backend/api/v1/services/avaliacao_service_supabase.py:63-76 | a stored provider's rating becomes the mean (0 when the reading fails); a failed update or an absent provider changes nothing |
| AvaliacaoServiceSupabase.CriarAvaliacao | backend/api/v1/services/avaliacao_service_supabase.py:10-38 | `None` and no change when the quote already has a review or a remote request fails before the insert; otherwise the review is appended and the provider's rating refreshed as far as the later requests succeed |
| SolicitacaoServiceSupabase.CriarSolicitacao | backend/api/v1/services/solicitacao_service_supabase.py:10-25 | `None` and no change when the insert fails; otherwise the request stored under the next id with status "aguardando_orcamentos" |
| SolicitacaoServiceSupabase.ListarSolicitacoesCliente | backend/api/v1/services/solicitacao_service_supabase.py:27-34 | `[]` when the query fails; otherwise exactly the client's requests, each once, newest first |
| SolicitacaoServiceSupabase.BuscarSolicitacao | backend/api/v1/services/solicitacao_service_supabase.py:36-43 | present exactly when the query succeeds and the id is stored, and then that request |
| SolicitacaoServiceSupabase.ListarSolicitacoesDisponiveis | backend/api/v1/services/solicitacao_service_supabase.py:45-53 | `[]` when the query fails; otherwise exactly the "aguardando_orcamentos" requests in the provider's categories, newest first; unlike the SQL variant, requests that already have quotes are left out |
| SolicitacaoServiceSupabase.CancelarSolicitacao | backend/api/v1/services/solicitacao_service_supabase.py:55-68 | true exactly when the request exists, belongs to the client and both remote requests succeed; then its status becomes "cancelada"; otherwise nothing changes |
| SolicitacaoServiceSupabase.DeletarSolicitacao | backend/api/v1/services/solicitacao_service_supabase.py:70-83 | true exactly when the request exists, belongs to the client and both remote requests succeed; then only the request is deleted, with no check of accepted quotes |
| OrcamentoServiceSupabase.LimitesArmazenados | backend/api/v1/services/orcamento_service_supabase.py:11-33 | limits missing or empty are stored as 0; each bound present is stored as given, each one missing as 0 |
| OrcamentoServiceSupabase.CriarOrcamento | backend/api/v1/services/orcamento_service_supabase.py:11-37 | `None` and no change exactly when the insert fails; otherwise the quote stored under the next id with the stored limits, the submitted fields and status "aguardando"; no price check and no change to the request |
| OrcamentoServiceSupabase.ListarOrcamentosPrestador | backend/api/v1/services/orcamento_service_supabase.py:39-46 | `[]` when the query fails; otherwise exactly the provider's quotes, newest first |
| OrcamentoServiceSupabase.BuscarOrcamento | backend/api/v1/services/orcamento_service_supabase.py:48-55 | present exactly when the query succeeds and the id is stored, and then that quote |
| OrcamentoServiceSupabase.ListarOrcamentosSolicitacao | backend/api/v1/services/orcamento_service_supabase.py:57-64 | `[]` when the query fails; otherwise exactly the request's quotes, newest first (not cheapest first as in the SQL variant) |
| OrcamentoServiceSupabase.AtualizarStatusOrcamento | backend/api/v1/services/orcamento_service_supabase.py:66-73 | true exactly when the update succeeds and the quote exists; then only its status changes, from any status |
| OrcamentoServiceSupabase.DeletarOrcamento | backend/api/v1/services/orcamento_service_supabase.py:75-88 | true exactly when the quote exists, is the provider's and both requests succeed; then only it is deleted, whatever its status |
| OrcamentoServiceSupabase.AceitarOrcamento | backend/api/v1/services/orcamento_service_supabase.py:90-131 | `None` and no change for an absent quote, a request that is not the client's or an early failure; otherwise the quote becomes "aceito" with start time the request's creation time, siblings untouched, and the request "com_orcamentos" unless that last update fails |
| OrcamentoServiceSupabase.MarcarRealizado | backend/api/v1/services/orcamento_service_supabase.py:133-158 | `None` and no change for an absent quote, another provider's or an early failure; otherwise, from any status, the quote becomes "realizado" with end time now, and the request "fechada" unless that last update fails |
| OrcamentosRoutes.JaAvaliado | backend/api/v1/routes/orcamentos.py:179-182 | `ja_avaliado` is true exactly when some review names the quote |
| OrcamentosRoutes.VisaoClienteSemLimites | backend/api/v1/routes/orcamentos.py:184-197 | the client row does not depend on the pricing-model bounds stored with the quote (no bound field is shown) |
| OrcamentosRoutes.VisaoClienteNuncaRealizado | backend/api/v1/schemas/orcamentos.py:31-41 | the client row shows the quote's stored status text, and `realizado` keeps its default false |
| OrcamentosRoutes.Projetar | backend/api/v1/routes/orcamentos.py:176-199 | the append loop yields one row per selected quote, in the same order |
| OrcamentosRoutes.ListarOrcamentosDaSolicitacao | backend/api/v1/routes/orcamentos.py:151-199 | 404 for an unknown request, 403 for another client's; otherwise exactly one row per quote of the request, cheapest first, each flagged as reviewed exactly when a review names it |
| OrcamentosRoutes.ListarOrcamentosRealizadosCliente | backend/api/v1/routes/orcamentos.py:223-262 | exactly the "realizado" quotes whose request belongs to the client, one row each |
| OrcamentosRoutes.CriarOrcamentoEndpoint | backend/api/v1/routes/orcamentos.py:49-80 | a non-positive value fails body validation; an unknown request gives 404; both change nothing; otherwise the value is checked against the bounds the pricing model gives for the request's category, description and location, a delivery time too long for its column is a data error, an unknown provider fails the commit, and the call succeeds exactly when the value is inside the bounds, the delivery time fits and the provider is stored; a created quote stores those bounds and is answered in the client view |
| Validators.PrimeiroIndice | backend/api/v1/core/validators.py:17 | the position of the first occurrence of a character, or -1 when it does not occur |
| Validators.UltimoIndice | backend/api/v1/core/validators.py:17 | the position of the last occurrence of a character, or -1 when it does not occur |
| Validators.CorpoEmailSolido | backend/api/v1/core/validators.py:17 | what the deterministic matcher accepts has the pattern's shape: local part, "@", domain, ".", two or more letters |
| Validators.PrimeiraArroba | backend/api/v1/core/validators.py:17 | in a text of that shape the "@" after the local part is the first "@" (the local class has no "@") |
| Validators.UltimoPonto | backend/api/v1/core/validators.py:17 | the "." before the final run of letters is the last "." |
| Validators.CorpoEmailCompleto | backend/api/v1/core/validators.py:17 | every text of the pattern's shape is accepted by the matcher |
| Validators.CorpoEmailCorreto | backend/api/v1/core/validators.py:17 | the matcher accepts a text exactly when it has the shape `[A-Za-z0-9._%+-]+@[A-Za-z0-9.-]+\.[A-Za-z]{2,}` |
| Validators.ValidarEmail | backend/api/v1/core/validators.py:8-18 | false for a missing or empty text; otherwise true exactly when the text, or the text minus one final newline (Python's `$`), has the pattern's shape |
| Validators.Remover | backend/api/v1/core/validators.py:30 | `re.sub(class, '', s)`: no character of the class is left, and the text does not grow |
| Validators.RemoverMembros | backend/api/v1/core/validators.py:30 | the characters left are exactly the text's characters outside the class |
| Validators.RemoverConcat | backend/api/v1/core/validators.py:30 | deleting distributes over concatenation |
| Validators.RemoverNada | backend/api/v1/core/validators.py:30 | a text with no character of the class is unchanged |
| Validators.ValidarTelefone | backend/api/v1/core/validators.py:21-33 | false for a missing or empty text; otherwise true exactly when 10 or 11 characters, all ASCII digits, remain after deleting whitespace, "(", ")" and "-" |
| Validators.UmDistinto | backend/api/v1/core/validators.py:52 | `len(set(t)) == 1` exactly when the text is non-empty and all its characters are equal |
| Validators.DoisDistintos | backend/api/v1/core/validators.py:52 | a text with two different characters has at least two distinct characters |
| Validators.ValidarCpf | backend/api/v1/core/validators.py:36-57 | as written: false for a missing or empty text; after deleting "." and "-", true for 11 digits that are not all equal, and also for 11 digits followed by one newline (`$` matches before it and the newline is a second distinct character) |
| Validators.ValidarCpfCorrigido | backend/api/v1/core/validators.py:36-57 | as intended: true exactly when the cleaned text is 11 digits that are not all equal; check digits are not verified |
| Validators.CorrigidoRejeitaRepetidos | backend/api/v1/core/validators.py:51-53 | the corrected check rejects every text whose cleaned characters are all equal |
| Validators.CpfRepetidoComQuebraDeLinha | backend/api/v1/core/validators.py:48-53 | eleven equal digits followed by a newline pass the check as written and fail the corrected one |
| Validators.FormaEmailTerminaEmLetra | backend/api/v1/core/validators.py:17 | a text whose last character is not a letter does not have the e-mail shape |
| Validators.EmailComQuebraDeLinha | backend/api/v1/core/validators.py:17-18 | an address is accepted, and still accepted with one final newline |
| Validators.EmailComDuasQuebras | backend/api/v1/core/validators.py:17-18 | no text followed by two newlines is accepted |
| Validators.EmailSemArroba | backend/api/v1/core/validators.py:17-18 | a text without "@" is never accepted |
| Validators.TelefoneCurto | backend/tests/unit/api/v1/core/test_validators_tdd.py:95-197 | a text of fewer than 10 characters (such as "12345") is never a phone number |
| Validators.TelefoneFormatado | backend/tests/unit/api/v1/core/test_validators_tdd.py:95-197 | "(DD) NNNNN-NNNN" and "(DD) NNNN-NNNN" are valid phone numbers |
| Validators.RemoverFormatado | backend/api/v1/core/validators.py:30 | deleting the separators of a formatted number leaves its digits in order |
| Validators.TelefoneSoDigitos | backend/tests/unit/api/v1/core/test_validators_tdd.py:95-197 | 10 or 11 bare digits (such as "11999999999") are a valid phone number |
| Validators.CpfRepetidoRejeitado | backend/tests/unit/api/v1/core/test_validators_tdd.py:95-197 | without a newline, a CPF whose cleaned characters are all equal ("111.111.111-11") is rejected |
| Validators.CpfDigitosDistintos | backend/api/v1/core/validators.py:55-57 | any 11 digits that are not all equal are accepted, whatever the check digits |
| ExcelService.Maximo | backend/api/v1/services/excel_service.py:60 | `df['id'].max()`: bounds every id of the sheet and is one of them |
| ExcelService.ProximoId | backend/api/v1/services/excel_service.py:57-60 | 1 for an empty sheet, otherwise one more than an id of the sheet and larger than every id of it |
| ExcelService.Decimal | backend/api/v1/services/excel_service.py:68 | the decimal writing of a number is a non-empty string of digits |
| ExcelService.ValorDoDecimal | backend/api/v1/services/excel_service.py:68 | reading back the decimal writing gives the number |
| ExcelService.ComZeros | backend/api/v1/services/excel_service.py:68 | `:03d`-style padding: the result is at least the width, ends with the text and is zeros before it |
| ExcelService.ValorSemZerosAEsquerda | backend/api/v1/services/excel_service.py:68 | leading zeros do not change the value of a digit string |
| ExcelService.ZerosValemZero | backend/api/v1/services/excel_service.py:68 | a string of zeros is digits worth 0 |
| ExcelService.ContarComPrefixo | backend/api/v1/services/excel_service.py:67 | the count of quote numbers starting with the month's prefix is at most the number of quotes |
| ExcelService.NumeroOrcamentoForma | backend/api/v1/services/excel_service.py:62-68 | a quote number is "ORC", the year and the two-digit month, then at least three digits worth one more than the quotes already numbered in that month |
| ExcelService.NumeroSeguinteDifere | backend/api/v1/services/excel_service.py:62-68 | once a quote with the generated number is saved, the next number generated in that month is different |
| ExcelService.Primeiro | backend/api/v1/services/excel_service.py:259-263 | the first position satisfying a condition, or none exactly when no position does |
| ExcelService.ItensDoOrcamento | backend/api/v1/services/excel_service.py:171 | the item rows kept are exactly those of the given quote |
| ExcelService.SemOrcamento | backend/api/v1/services/excel_service.py:344 | the quote rows kept are exactly those with another id |
| ExcelService.SemItensDe | backend/api/v1/services/excel_service.py:345 | the item rows kept are exactly those of other quotes |
| ExcelService.MontarItens | backend/api/v1/services/excel_service.py:170-181 | reading the items of a quote, when it succeeds, gives one item per item row |
| ExcelService.MontarTodosCorreto | backend/api/v1/services/excel_service.py:151-198 | reading all quotes succeeds exactly when every quote can be read (its client and every item's service exist), and then gives one quote per row, in sheet order |
| ExcelService.NovosItens | backend/api/v1/services/excel_service.py:229-250 | building the new item rows, when it succeeds, gives one row per requested item |
| ExcelService.NovosItensFalha | backend/api/v1/services/excel_service.py:237 | building the new item rows fails exactly when some requested service does not exist |
| ExcelService.NovosItensForma | backend/api/v1/services/excel_service.py:229-250 | each new row belongs to the quote, names the requested service and has quantity times unit price as its total |
| ExcelService.NovosItensTotal | backend/api/v1/services/excel_service.py:210 | the totals of the new rows add up to the quote's total |
| ExcelService.ItensDeUmaChamadaCompartilhamId | backend/api/v1/services/excel_service.py:231-232 | all rows added in one call get the same id, since the item sheet is only saved after the loop |
| ExcelService.Planilha.constructor | backend/api/v1/services/excel_service.py:14-46 | a new workbook has four empty sheets |
| ExcelService.Planilha.CreateClient | backend/api/v1/services/excel_service.py:84-105 | appends one client row with the next id and both timestamps set to now, and returns it |
| ExcelService.Planilha.CreateService | backend/api/v1/services/excel_service.py:123-148 | appends one service row with the next id, and returns it |
| ExcelService.Planilha.LerItens | backend/api/v1/services/excel_service.py:170-181 | the loop over a quote's item rows computes the items as specified, failing on a missing service |
| ExcelService.Planilha.LerOrcamento | backend/api/v1/services/excel_service.py:159-196 | reads one quote with its client and items as specified, failing on a missing client or service |
| ExcelService.Planilha.GetAllQuotes | backend/api/v1/services/excel_service.py:151-198 | the loop over the quote rows computes all quotes as specified |
| ExcelService.Planilha.GetQuoteById | backend/api/v1/services/excel_service.py:257-263 | fails when reading all quotes fails; otherwise none exactly when no row has the id, and else the first quote with that id |
| ExcelService.Planilha.CreateQuote | backend/api/v1/services/excel_service.py:200-255 | appends the quote row (next id, month's number, total of the items) even when an item's service is missing; appends the item rows only when every service exists; succeeds exactly when the items were built and the sheets read back, and then returns the new quote as read back |
| ExcelService.Planilha.ConstruirItens | backend/api/v1/services/excel_service.py:229-250 | the loop over the requested items builds the rows as specified |
| ExcelService.Planilha.UpdateQuote | backend/api/v1/services/excel_service.py:265-330 | none and no change for an unknown id or a missing service; otherwise sets the given fields and the timestamp, and when items are given with entries replaces the quote's items and recomputes the total (an empty list only zeroes the total, since the item sheet is not saved); the answer is the updated quote as read back from the new sheets, none exactly when they cannot be read |
| ExcelService.Planilha.DeleteQuote | backend/api/v1/services/excel_service.py:332-355 | false and no change for an unknown id; otherwise removes the quote and exactly its items |
| ExcelService.Campos | backend/api/v1/services/excel_service.py:278-281 | the row takes each field the caller set and keeps every other field |
| ExcelService.MontarItensErroPropaga | backend/api/v1/services/excel_service.py:173 | a failure on the first items makes reading all of them fail |
| ExcelService.MontarTodosErroPropaga | backend/api/v1/services/excel_service.py:161 | a failure on the first quotes makes reading all quotes fail |
| ExcelService.NovosItensFalhaPropaga | backend/api/v1/services/excel_service.py:237 | a missing service among the first requested items makes building all of them fail |
| Analytics.IndiceDaChave | backend/api/v1/routes/analytics.py:30 | where a key sits in the dictionary, or none exactly when it is absent |
| Analytics.SomaContagensAtualizada | backend/api/v1/routes/analytics.py:30 | replacing one entry changes the sum of counts by the difference of its counts |
| Analytics.SomaContagensAnexada | backend/api/v1/routes/analytics.py:30 | adding an entry adds its count to the sum of counts |
| Analytics.Anexar | backend/api/v1/routes/analytics.py:28-30 | one more row adds one to its own key's count and its value to that key's sum, and changes no other key |
| Analytics.AcrescentarExistente | backend/api/v1/routes/analytics.py:30 | incrementing a key already present keeps the dictionary faithful to the rows seen |
| Analytics.AcrescentarNovo | backend/api/v1/routes/analytics.py:30 | inserting an absent key with count 1 keeps the dictionary faithful to the rows seen |
| Analytics.AcrescentarPreserva | backend/api/v1/routes/analytics.py:30 | one loop step keeps the dictionary faithful and adds one to the sum of counts |
| Analytics.AusenteNaoOcorre | backend/api/v1/routes/analytics.py:30 | a key that does not occur has count 0 and sum 0 |
| Analytics.AgrupamentoCorreto | backend/api/v1/routes/analytics.py:27-30 | after the loop each key occurs once, exactly the keys of the rows occur, each with its number of rows and the sum of their values, and the counts add up to the number of rows |
| Analytics.Agrupar | backend/api/v1/routes/analytics.py:27-30 | the counting loop computes the dictionary as specified |
| Analytics.InserirDesc | backend/api/v1/routes/analytics.py:40 | inserting one element lengthens the list by one |
| Analytics.OrdenarDesc | backend/api/v1/routes/analytics.py:40 | sorting keeps the length |
| Analytics.NaFrente | backend/api/v1/routes/analytics.py:40 | an element at least as high as every element of a sorted list can go in front of it |
| Analytics.CabecaDomina | backend/api/v1/routes/analytics.py:40 | the head of a sorted list dominates every element of a rearrangement of its tail plus a lower element |
| Analytics.InserirDescCorreto | backend/api/v1/routes/analytics.py:40 | inserting into a sorted list gives a sorted list with the same elements plus the new one |
| Analytics.OrdenarDescCorreto | backend/api/v1/routes/analytics.py:40 | `sorted(..., reverse=True)`: the result is highest first and a permutation of the input |
| Analytics.MenorReal | backend/api/v1/routes/analytics.py:110 | `min(prices)` is at most every price and is one of them |
| Analytics.MaiorReal | backend/api/v1/routes/analytics.py:111 | `max(prices)` is at least every price and is one of them |
| Analytics.Media | backend/api/v1/routes/analytics.py:24 | 0 when there are no quotes, otherwise the value that times the count gives the revenue |
| Analytics.TopServicos | backend/api/v1/routes/analytics.py:39-40 | the first five (or all, when fewer) of the usage list sorted by count, highest first |
| Analytics.TopServicosEmOrdem | backend/api/v1/routes/analytics.py:40 | the top services come highest count first |
| Analytics.TopServicosContam | backend/api/v1/routes/analytics.py:33-40 | each top service is a used service with its number of items |
| Analytics.TopServicosDominam | backend/api/v1/routes/analytics.py:33-40 | a service that is used but not listed is used no more often than any listed one |
| Analytics.TopDomina | backend/api/v1/routes/analytics.py:40 | the prefix of a sorted rearrangement dominates the names left out of it |
| Analytics.InicioUltimos | backend/api/v1/routes/analytics.py:57 | `[-6:]`: the start of the last six entries, or 0 when there are fewer |
| Analytics.TendenciasMensais | backend/api/v1/routes/analytics.py:56-77 | at most six trends, exactly six when six or more months have quotes, each the entry of one of the latest months |
| Analytics.TendenciasEmOrdem | backend/api/v1/routes/analytics.py:57 | the trends are in strictly ascending month order |
| Analytics.TendenciasTotalizam | backend/api/v1/routes/analytics.py:48-54 | each trend's month has quotes, and the trend carries their count and the sum of their totals |
| Analytics.TendenciasSaoAsUltimas | backend/api/v1/routes/analytics.py:57 | every month with quotes that is not listed is earlier than every listed month |
| Analytics.TendenciasCrescentes | backend/api/v1/routes/analytics.py:57 | the suffix of strictly ascending months gives strictly ascending trends |
| Analytics.TendenciasContam | backend/api/v1/routes/analytics.py:70-77 | trends built from faithful month entries carry each month's count and revenue |
| Analytics.TendenciasUltimas | backend/api/v1/routes/analytics.py:57 | months missing from the last entries are earlier than the listed ones |
| Analytics.MesesRecentes | backend/api/v1/routes/analytics.py:48-57 | the sorted month entries stay faithful to the quotes, and months before the cut are earlier than those after |
| Analytics.Resumir | backend/api/v1/routes/analytics.py:17-78 | the overview: the totals, the revenue, the mean, the revenue of the last 30 days, status counts faithful to the quotes and adding up to their number, the top services and the monthly trends |
| Analytics.VisaoGeral | backend/api/v1/routes/analytics.py:8-80 | an error answer exactly when reading the quotes fails; otherwise the counts, the revenue, the mean value, the revenue of the last 30 days, the status distribution (one group per status with its count), the top services and the monthly trends of the quotes read |
| Analytics.TopPreservaOrdem | backend/api/v1/routes/analytics.py:40 | a prefix of a sorted list is sorted, drawn from it and at least as high as the rest |
| Analytics.MesesCrescentes | backend/api/v1/routes/analytics.py:57 | sorted month entries with distinct months are strictly ascending |
| Analytics.MesesEmOrdem | backend/api/v1/routes/analytics.py:57 | sorted by the negated month, earlier positions hold months no later |
| Analytics.DistintosEmPosicoesDistintas | backend/api/v1/routes/analytics.py:51 | a rearrangement of entries with distinct months holds distinct months at distinct positions |
| Analytics.UnicoNaSequencia | backend/api/v1/routes/analytics.py:51 | in a list with distinct keys each entry occurs at most once |
| Analytics.Estatisticas | backend/api/v1/routes/analytics.py:99-114 | a used service's entry: its id, times used at least 1, the mean price, lowest and highest price among its items, and the total quantity |
| Analytics.AnaliseDoServico | backend/api/v1/routes/analytics.py:91-114 | a service has an entry exactly when some item uses it, and then the statistics of those items |
| Analytics.AnalisesUsadas | backend/api/v1/routes/analytics.py:99 | every listed service was used at least once |
| Analytics.Ativos | backend/api/v1/routes/analytics.py:122 | the number of active services is at most the number listed |
| Analytics.TodosAtivos | backend/api/v1/routes/analytics.py:122 | when every listed service was used, all are active |
| Analytics.AnaliseServicos | backend/api/v1/routes/analytics.py:82-125 | an error answer exactly when reading the quotes fails; otherwise one entry per used service, sorted by times used highest first, the number of services, and active services equal to the number listed |
| Analytics.AnaliseDoCliente | backend/api/v1/routes/analytics.py:136-150 | a client has an entry exactly when it has quotes, and then its id and name, their count, total and mean, and as last date the latest creation instant: no earlier than any of them and equal to one of them |
| Analytics.UltimaData | backend/api/v1/routes/analytics.py:149 | the latest creation instant is no earlier than any and is one of them |
| Analytics.AnaliseClientes | backend/api/v1/routes/analytics.py:127-161 | an error answer exactly when reading the quotes fails; otherwise one entry per client with quotes, sorted by total spent highest first, and the counts of clients |
| TrainModels.PalavraNaoEEspaco | backend/train_models.py:258 | no character is both a word character and whitespace |
| TrainModels.Minusculo | backend/train_models.py:257 | lower-casing one character maps each of 'A'..'Z' to the letter 32 code points on in 'a'..'z', leaves every other character alone, and keeps word and whitespace characters in their class |
| TrainModels.Minusculas | backend/train_models.py:257 | `lower()` keeps the length and lower-cases character by character |
| TrainModels.TrocarSimbolos | backend/train_models.py:258 | keeps the length; each character that is neither a word character nor whitespace becomes a space, the others stay |
| TrainModels.SemEspacosIniciais | backend/train_models.py:260 | a suffix that does not start with whitespace, and all that was dropped is whitespace |
| TrainModels.SemEspacosFinais | backend/train_models.py:260 | a prefix that does not end with whitespace, and all that was dropped is whitespace |
| TrainModels.Colapsar | backend/train_models.py:259 | collapsing whitespace runs never lengthens the text and keeps a non-whitespace first character (what it keeps is proved in ColapsarConservaVisiveis) |
| TrainModels.Aparar | backend/train_models.py:260 | `strip()` never lengthens the text |
| TrainModels.PrefixarConserva | backend/train_models.py:259 | one more word character, or one space before a non-space, keeps the collapsed shape |
| TrainModels.ColapsarForma | backend/train_models.py:259 | after collapsing, a text of word and whitespace characters has only word characters and single spaces |
| TrainModels.ColapsarFormaEspaco | backend/train_models.py:259 | a leading run of whitespace becomes one space and the shape holds |
| TrainModels.ColapsarFormaPalavra | backend/train_models.py:259 | a leading word character is kept and the shape holds |
| TrainModels.TrechoConserva | backend/train_models.py:260 | any piece of a text of that shape has that shape |
| TrainModels.SimbolosTrocados | backend/train_models.py:257-258 | after lower-casing and replacing symbols only lower-case word characters and whitespace remain |
| TrainModels.ApararEhTrecho | backend/train_models.py:260 | what `strip()` keeps is a contiguous piece of the text |
| TrainModels.ApararSemEspacosNasPontas | backend/train_models.py:260 | what `strip()` keeps neither starts nor ends with whitespace |
| TrainModels.ApararLimpa | backend/train_models.py:259-260 | stripping a text of word characters and single spaces gives a cleaned text |
| TrainModels.LimparTexto | backend/train_models.py:251-260 | the cleaned text is never longer than the text of the input (its content is proved in LimparTextoConservaVisiveis) |
| TrainModels.LimparTextoLimpo | backend/train_models.py:251-260 | the cleaned text of any input (a string, or any other value turned into its text) has no upper-case ASCII letter, only word characters and single spaces, and no space at either end |
| TrainModels.ColapsarIdentidade | backend/train_models.py:259 | a text whose whitespace is single spaces is left unchanged by the collapse |
| TrainModels.LimpoFixo | backend/train_models.py:251-260 | cleaning an already clean text returns it unchanged |
| TrainModels.LimparTextoIdempotente | backend/train_models.py:251-260 | cleaning twice gives the same text as cleaning once |
| TrainModels.Visiveis | backend/train_models.py:259 | the non-whitespace characters of a text, in order: never longer than the text and free of whitespace |
| TrainModels.VisiveisConcat | backend/train_models.py:259 | the visible characters of a concatenation are those of each part, in order |
| TrainModels.VisiveisDeEspacos | backend/train_models.py:259-260 | a run of whitespace has no visible characters |
| TrainModels.IniciaisInvisiveis | backend/train_models.py:260 | dropping the leading whitespace keeps every visible character |
| TrainModels.FinaisInvisiveis | backend/train_models.py:260 | dropping the trailing whitespace keeps every visible character |
| TrainModels.ColapsarConservaVisiveis | backend/train_models.py:259 | `re.sub(r'\s+', ' ', ...)` keeps every non-whitespace character, in order |
| TrainModels.LimparTextoConservaVisiveis | backend/train_models.py:251-260 | the cleaned text's non-whitespace characters are exactly those of the lower-cased text with its symbols replaced by spaces, in order: collapsing and stripping drop nothing but whitespace |
| TrainModels.CombinarDados | backend/train_models.py:385-400 | without real data the synthetic data; otherwise each list is the real list followed by the synthetic one |
| TrainModels.CombinarPreservaAlinhamento | backend/train_models.py:385-400 | merging aligned data gives aligned data in which each sample keeps its name, category, price and description together, real samples first |

## Left out

- Cryptography: bcrypt, RSA key generation and PKCS#1 v1.5 decryption, Fernet and the JWT signature are uninterpreted function parameters. `verify_password`, `get_password_hash`, `encrypt_data` and `decrypt_data` of `backend/api/v1/core/security.py:99-119` are single calls into those primitives and have no members. The same holds for `encrypt_user_data` and `decrypt_user_data` of `backend/api/v1/services/user_service.py:84-92`.
- A failure of RSA key generation itself is not modelled; generation always yields a pair.
- Timestamps are naturals or parameters. `datetime.now()`, the 30-day window and the `"%Y-%m"` month key are given by the caller. The month key is an integer whose order is that of the texts.
- The pricing model (`SklearnMLAdapter`, the scikit-learn models, the 0.7/1.5 multipliers) is an opaque function returning minimum, suggested and maximum values.
- FakeMLAdapter `predict_price` and `predict_category` (`backend/api/v1/core/adapters.py:213-219`) return constants that no modelled operation uses. Only `calculate_price_limits` is modelled.
- `SupabaseAdapter`, `SklearnMLAdapter`, `FileSystemAdapter` and `FakeFileStorageAdapter` in the same file delegate to remote or file-system services, and are left out.
- Quote endpoints: `calcular_limites_endpoint`, `marcar_realizado_endpoint`, `listar_meus_orcamentos`, `deletar_orcamento_endpoint` and `aceitar_orcamento_endpoint` (`backend/api/v1/routes/orcamentos.py:24-47`, `81-149`, `201-221`) only forward to the quote service. Their guards are those of the modelled service methods.
- Spreadsheet I/O: reading and writing the workbook through pandas and openpyxl is not modelled. Each sheet is a sequence of rows held by `ExcelService.Planilha`. `get_all_clients` and `get_all_services` return those sequences as they are.
- Adapters.FakeDatabaseAdapter: records are values. In the adapter, the dictionary a create or get call returns is the one stored in the table, so a record obtained earlier sees a later in-place status change by `update_orcamento_status`. That sharing between returned and stored records is not captured.
- AuthService.CriarPrestador: the provider's `portfolio` JSON column is not carried. It is stored as given and no modelled operation reads it.
- ExcelService: pandas' NaN for a missing description is the model's `None`.
- ExcelService: the failure of a whole `update_quote` or `delete_quote` call on an I/O error is not modelled. Only a missing row raises.
- ExcelService.Planilha.UpdateQuote: an explicit `null` title or status, which pandas would store as a missing cell, is not distinguished from a given value.
- ExcelService.NumeroOrcamentoForma: a quote number counts the quotes of the month, so after a deletion a later number can repeat an earlier one. The model states the form of the number and that the next number differs from the one just saved, not global uniqueness.
- Analytics: the text of the error answer (`"Erro ao gerar analytics: ..."`) is reduced to the error case. Any exception while reading the quotes gives it.
- TrainModels.Minusculo: lower-casing and the `\w` class are exact for ASCII. Every other character above 127 that is not whitespace is taken as a word character that lower-casing leaves alone. Python's Unicode case mapping and its word-character tables are not modelled.
- Validators.ValidarCpf: `\d` is read as an ASCII digit. Python also matches other Unicode decimal digits.
- Validators.ValidarTelefone: `\d` is read as an ASCII digit. Python also matches other Unicode decimal digits.
- The training, synthetic-data generation, pickling and plotting parts of `backend/train_models.py` rely on numpy, scikit-learn and matplotlib, and are left out.
- Transactions are one atomic step per service call. Concurrency and races are not modelled.
- UserService.UpdateUser: the in-memory change of the ORM object before a raised `ValueError` is not modelled, because it is never committed. The store is unchanged on every error.
- The user ORM model (`models/user.py`) that `user_service.py` imports is not part of this model. Its columns are taken from the fields the service reads and writes; their widths are not known, so no user text is refused as too long.
- Session.Database: a failed commit leaves the id counters where they were. A PostgreSQL sequence is not rolled back, so after a failed insert the next stored row gets a higher id than the model's counter gives.
- Three behaviours of the request and quote services that a reader might not expect are modelled as the code has them:
  - a provider with an empty category list sees no requests, since `in_([])` matches nothing;
  - accepting a quote does not check the quote's status;
  - creating a quote on a closed or cancelled request is not refused.
- The Supabase variants collapse every remote exception (network or refusal by the database) into the caught error answer. The remote schema's own constraints are not known to them.

## Findings

| source | as written | input that shows it | evidently intended | confidence | as-written member | corrected member |
|---|---|---|---|---|---|---|
| backend/api/v1/core/validators.py:48-53 | `re.match(r'^\d{11}$', cpf_clean)` lets one final newline through, because `$` also matches before a final newline. `len(set(cpf_clean)) == 1` then counts the newline as a second distinct character. | `"11111111111\n"`, eleven equal digits and a newline, is accepted | a CPF of eleven equal digits is rejected, with or without a trailing newline | not executed | Validators.ValidarCpf, Validators.CpfRepetidoComQuebraDeLinha | Validators.ValidarCpfCorrigido, Validators.CorrigidoRejeitaRepetidos |
