# Invoice workflow of the 2RS Contabilidade service, in Dafny

This project models the core of a small back office for service invoices
("notas fiscais de serviço"). Users are accountants' clients who issue invoices.
Each user owns a list of clients ("tomadores"). An invoice is created as
*pending* and then either approved, rejected or emitted at the municipal
NFS-e web service. The NFS-e web service is an external system; here it is only
a parameter.

The database is a class `Store.Database`:
- maps from id to invoice, client and user;
- the CNAE → service-code table;
- the next ids the sequences hand out.

Its invariant `Valid` holds:
- every row is stored under its own id;
- every foreign key resolves;
- `ON DELETE SET NULL` and `ON DELETE CASCADE` are written out where rows are deleted.

Operations that change the database are methods with `modifies` frames. For
every outcome, the `ensures` of each method state the new value of each field in
its frame. Pure helpers are functions with lemmas about them. Error responses
are `Result.Err(code)`, with the HTTP code the service answers.

Modules:
- `Outcomes`: `Option`, `Result`, HTTP codes.
- `Models`: the rows and the request bodies.
- `Documents`: CPF/CNPJ digit stripping and masking.
- `UserSchemas`: the document validators of the user schemas.
- `CnaeListaServicos`: the CNAE → service-code resolver.
- `Nfse`: the emission request and the acceptance test on the web-service answer.
- `NotaStatus`: the status machine as a transition function.
- `Store`: the database.
- `CrudCliente` and `ClienteRoutes`: the client registry and its routes.
- `CrudNotaFiscal` and `ApiNotaFiscal`: the invoice operations and routes.
- `CrudUsuario`: user maintenance and the batch tax-rate update.

Status ids are 1 pending, 2 emitted, 4 approved, 5 rejected. Role ids are 1
administrator, 2 issuer. Money and rates are integers (cents and basis points);
only equality is ever used.

Some quirks are reproduced as the code has them, not corrected:
- an approved invoice can never be emitted;
- a rejection stores whatever status the caller sends;
- editing an invoice never changes its stored service code, because the code assigns a misspelt attribute;
- the listing by owner keeps the last duplicate activity, while the administrative listing keeps the first;
- the client-delete route masks a document without stripping punctuation first.

## Model

| member | source | states |
|---|---|---|
| Documents.OnlyDigits | app/crud/nota_fiscal.py:347 | the result consists of digits only, is no longer than the input, and is the input itself when that is all digits |
| Documents.OnlyDigitsAppend | app/crud/nota_fiscal.py:347 | stripping non-digits distributes over concatenation, so the digits keep their order |
| Documents.MascaraCpfSpec | app/crud/nota_fiscal.py:349-351 | the CPF mask of 11 digits has the shape `###.###.###-##` with exactly those digits in the slots |
| Documents.MascaraCnpjSpec | app/crud/nota_fiscal.py:352-354 | the CNPJ mask of 14 digits has the shape `##.###.###/####-##` with exactly those digits in the slots |
| Documents.SlotsDetermine | app/crud/nota_fiscal.py:349-354 | a masked string is determined by its mask and the characters in its slots |
| Documents.FormatarCpfCnpj | app/crud/nota_fiscal.py:342-357 | 11 digits give the 14-character CPF shape, 14 digits the 18-character CNPJ shape, each with the input's digits in the slots; any other count gives the stripped digits, not the raw input |
| Documents.FormatarCpfCnpjDigits | app/crud/nota_fiscal.py:347-357 | round trip: stripping non-digits from the formatted value gives exactly the digits of the input |
| Documents.FormatarCpfCnpjIdempotent | app/crud/nota_fiscal.py:342-357 | formatting an already formatted value changes nothing |
| UserSchemas.CleanCnpjCpf | app/schemas/usuario.py:43-49 | accepted iff the digit count is 11 or 14; the accepted value is the input's digits in order; otherwise a 422 validation error |
| UserSchemas.CleanCnpjCpfOpcional | app/schemas/usuario.py:79-87 | None passes through; a present value is accepted or refused exactly as on creation, and the accepted value is its digits |
| UserSchemas.CleanCnpjCpfIdempotent | app/schemas/usuario.py:46-49 | validating a validated value gives the same value |
| UserSchemas.ValidatedIsMasked | app/schemas/usuario.py:47 | a validated document always takes a masked branch of the formatter (CPF shape for 11 digits, CNPJ shape for 14), never the pass-through branch |
| CnaeListaServicos.GetCodigoServicoByCnae | app/crud/cnae_lista_servicos.py:27-33 | None iff no row has exactly that CNAE; otherwise the service code of a row whose CNAE matches |
| CnaeListaServicos.CnaeSemNormalizacao | app/crud/cnae_lista_servicos.py:30 | matching is exact string equality: "6201501" and "6201-5/01" do not find each other |
| CnaeListaServicos.GetCnaeAtividade | app/crud/cnae_lista_servicos.py:15-24 | 403 iff the caller is not an administrator; an administrator gets the whole table |
| Nfse.Lower | app/crud/nota_fiscal.py:333 | lower-casing keeps the length and lower-cases each character on its own |
| Nfse.ResultadoEmissao | app/crud/nota_fiscal.py:318-339 | an emission succeeds iff the answer is well-formed XML whose result element exists, has non-empty text and does not contain "erro" in any case; every failure is a 502 |
| Nfse.ErroEmQualquerCaixaRecusa | app/crud/nota_fiscal.py:333 | a result text containing "erro" in any mix of cases is refused |
| Nfse.RespostaNumericaAceita | app/crud/nota_fiscal.py:333-337 | every non-empty all-digit receipt is accepted and returned as the result |
| Nfse.RespostaErroRecusada | app/crud/nota_fiscal.py:333 | a text starting with an upper-case "ERRO", whatever follows, is refused with 502 |
| Nfse.RespostasVaziasRecusadas | app/crud/nota_fiscal.py:333-336 | an empty text, a missing text and a missing result element are all refused with 502 |
| Nfse.MontarPedido | app/crud/nota_fiscal.py:281-303 | no request exists iff the invoice has no rate; otherwise the request carries the rate, value, service code, the issuer's name and e-mail; both documents are the formatter's masked output of the rows' documents, with the same digits as the rows; a client without a document gives an empty document; the description defaults when missing or empty; the municipal registration is sent as stored, or "" when missing |
| NotaStatus.Transicao | app/crud/nota_fiscal.py:94-101 | approve, reject and emit apply only from pending; approve leads to 4, emit to 2, reject to the status the caller chose; edit leads to 1 from any status; the raw setter to any status |
| NotaStatus.ForaDePendenteSoEdicao | app/crud/nota_fiscal.py:189-219 | outside pending, only an edit or the raw setter changes the status |
| NotaStatus.AprovadaNuncaEmitida | app/crud/nota_fiscal.py:231 | from approved, no sequence of approvals, rejections and emissions changes the status, and each of them is refused |
| NotaStatus.EmitidaSoDePendente | app/crud/nota_fiscal.py:231-263 | emission leads to emitted exactly when the invoice is pending |
| NotaStatus.RecusaArbitraria | app/crud/nota_fiscal.py:199-201 | a rejection can store "emitted" or any other status the caller sends |
| NotaStatus.EdicaoReabre | app/crud/nota_fiscal.py:158-159 | an edit reopens an invoice from any status, after which it can be emitted or approved again |
| Store.Database.constructor | app/models/nota_fiscal.py:22-29 | an empty database is consistent, with both sequences starting at 1 |
| Store.Desvincular | app/models/nota_fiscal.py:27-29 | an invoice pointing at a removed client loses the client, any other is unchanged; the result never points at a removed client |
| Store.DesvincularClientes | app/models/nota_fiscal.py:27-29 | ON DELETE SET NULL over the whole invoice table: same keys, each row unlinked from the removed clients |
| CrudCliente.ComCampo | app/crud/cliente.py:89-90 | one attribute assignment sets that column and no other |
| CrudCliente.AplicarCampos | app/crud/cliente.py:89-90 | the assignment loop sets exactly the columns sent and keeps the others and the keys |
| CrudCliente.GetClienteById | app/crud/cliente.py:9-12 | the client with that id, or None iff there is none |
| CrudCliente.GetClienteByIdUsuario | app/crud/cliente.py:15-22 | a result is always the caller's own client with that id; None iff the id is unknown or the client is someone else's |
| CrudCliente.GetClienteByCpfCnpj | app/crud/cliente.py:25-33 | None iff the caller has no client with that document; 500 iff more than one; otherwise the only one, always the caller's |
| CrudCliente.UnicosNoMaximoUm | app/crud/cliente.py:25-33 | under per-owner uniqueness of documents the lookup finds at most one row |
| CrudCliente.NovoCliente | app/crud/cliente.py:59-62 | the new row takes the request's columns, with the owner forced to the caller whatever the request says |
| CrudCliente.CreateCliente | app/crud/cliente.py:43-65 | 400 when the caller already has a client with that document, 500 when several, and nothing inserted; otherwise exactly one new row under the next id; per-owner uniqueness of documents is preserved |
| CrudCliente.DeleteCliente | app/crud/cliente.py:68-80 | only a client of the caller is removed, and invoices pointing at it lose it; otherwise nothing changes |
| CrudCliente.EditaCliente | app/crud/cliente.py:83-93 | an unknown id changes nothing; otherwise exactly the columns sent change; a null company name fails the commit with 500 and changes nothing |
| ClienteRoutes.MascaraDocumento | app/api/v1/cliente_routes.py:108-115 | 14 characters get the CNPJ shape and 11 the CPF shape, with the characters in the slots; any other length is returned unchanged, with no stripping |
| ClienteRoutes.MascaraDocumentoConcordaComFormatar | app/api/v1/cliente_routes.py:108-115 | on a digits-only document the route's mask agrees with the formatter |
| ClienteRoutes.CpfPontuadoViraCnpj | app/api/v1/cliente_routes.py:108-115 | for every 11-digit CPF, its punctuated form (14 characters) is masked as a CNPJ by the route, while the formatter returns it unchanged, so the two always disagree |
| ClienteRoutes.CpfPontuadoExemplo | app/api/v1/cliente_routes.py:108-109 | the punctuated CPF 123.456.789-01 comes out of the route's mask as 12.3.4.56./789--01 |
| ClienteRoutes.FormatarCpfExemplo | app/crud/nota_fiscal.py:349-351 | the formatter punctuates 12345678901 as 123.456.789-01 |
| ClienteRoutes.ObterClienteById | app/api/v1/cliente_routes.py:20-38 | found iff the client exists and the caller is an administrator or its owner; otherwise 404 |
| ClienteRoutes.DeletarCliente | app/api/v1/cliente_routes.py:84-119 | 404 and nothing deleted unless the client is the caller's; 500 and nothing deleted when it has no document; otherwise it always succeeds: the name and masked document are returned and the client is deleted with its invoices unlinked |
| CrudNotaFiscal.DescUltima | app/crud/nota_fiscal.py:43-44 | the description of the last activity with the invoice's code, None iff there is none |
| CrudNotaFiscal.DescPrimeira | app/crud/nota_fiscal.py:80-84 | the description of the first activity with the invoice's code, None iff there is none |
| CrudNotaFiscal.DescSemDuplicatas | app/crud/nota_fiscal.py:43-44 | without duplicate codes the two listings describe an invoice alike |
| CrudNotaFiscal.DescDuplicadaDiverge | app/crud/nota_fiscal.py:80-84 | with a duplicated code the two listings give different descriptions |
| CrudNotaFiscal.GetNotasByUsuario | app/crud/nota_fiscal.py:27-48 | lists each of the owner's invoices that is not rejected exactly once, as stored, each described by the last matching activity |
| CrudNotaFiscal.GetTodasNotas | app/crud/nota_fiscal.py:64-86 | lists every invoice once for an administrator and only the caller's otherwise, each described by the first matching activity |
| CrudNotaFiscal.CreateNotaFiscal | app/crud/nota_fiscal.py:19-24 | inserts exactly one row, under the next id, holding the data given |
| CrudNotaFiscal.UpdateStatusNota | app/crud/nota_fiscal.py:94-101 | None iff the invoice is unknown; otherwise the status becomes the given one, whatever it was, and nothing else changes |
| CrudNotaFiscal.AprovarNotaFiscal | app/crud/nota_fiscal.py:208-222 | None for an unknown invoice; 400 and no change unless pending; a pending invoice becomes approved and nothing else changes |
| CrudNotaFiscal.RecusarNotaFiscal | app/crud/nota_fiscal.py:184-205 | an unknown id fails with 500 and no change; 400 and no change iff the invoice is not pending; otherwise the status becomes the one sent, the reason is stored, and nothing else changes |
| CrudNotaFiscal.BloqueioEmissao | app/crud/nota_fiscal.py:225-243 | the checks decide in source order: an unknown id is 404; a present invoice that is not pending is 400 for every caller, before any role check; a pending invoice is 403 exactly when the caller is an issuer and does not own it or has `emite` false; past those checks, a pending invoice without a client is 400 and one with a client passes |
| CrudNotaFiscal.AdminEmiteQualquerPendente | app/crud/nota_fiscal.py:237-239 | an administrator may emit any pending invoice with a client, whoever owns it |
| CrudNotaFiscal.EmissorSoPropria | app/crud/nota_fiscal.py:237-239 | an issuer passes the checks only on their own invoice and only when their flag is not false |
| CrudNotaFiscal.AprovadaNaoEmite | app/crud/nota_fiscal.py:231-235 | an approved invoice is always refused with 400 |
| CrudNotaFiscal.PedidoPara | app/crud/nota_fiscal.py:245-255 | a request can be built for the invoice iff it has a rate |
| CrudNotaFiscal.EmitirNotaFinalizada | app/crud/nota_fiscal.py:225-266 | a blocked emission answers the block's code; otherwise it succeeds iff a request exists and the service accepts it, and otherwise 502 with nothing changed; success sets the status to emitted and nothing else |
| CrudNotaFiscal.CamposEnviados | app/crud/nota_fiscal.py:122-126 | the client columns the edit writes are the ones the body always carries plus the optional ones it set, with their values |
| CrudNotaFiscal.ClienteDoPedido | app/crud/nota_fiscal.py:128-148 | the client built from an invoice body carries that body's company name, document and address |
| CrudNotaFiscal.ClientesAposEdicao | app/crud/nota_fiscal.py:119-150 | the invoice's own client is updated from the body; when it has none, a new client is created under the next id; no other client changes |
| CrudNotaFiscal.UpdateNotaFiscal | app/crud/nota_fiscal.py:104-181 | None and no change iff the invoice is not the caller's; 400 and no change iff the CNAE is unknown; otherwise the CNAE, value and description are overwritten, the status returns to pending from any status, the reason becomes "" and the stored service code stays as it was |
| ApiNotaFiscal.EmitirNota | app/api/v1/nota_fiscal.py:41-121 | reuses the caller's client with that document or creates one for the caller; 500 if several; 400 for an unknown CNAE, creating no invoice but keeping a client just created; a created invoice is pending, the caller's, carries the caller's rate, the resolved service code and the client |
| ApiNotaFiscal.RecusarNota | app/api/v1/nota_fiscal.py:168-194 | 403 for a non-administrator before anything is read; otherwise the outcome of the invoice crud's rejection, including its 500 for a missing invoice; an administrator rejecting a pending invoice always succeeds |
| ApiNotaFiscal.AprovarNota | app/api/v1/nota_fiscal.py:197-211 | 403 for a non-administrator before anything is read; 404 for a missing invoice; otherwise the approval of the invoice crud; an administrator approving a pending invoice always succeeds |
| ApiNotaFiscal.AtualizarStatus | app/api/v1/nota_fiscal.py:214-220 | any caller sets any status on any invoice; only a missing invoice fails |
| ApiNotaFiscal.AtualizarNota | app/api/v1/nota_fiscal.py:223-238 | 404 iff the invoice is not the caller's; otherwise the edit of the invoice crud |
| CrudUsuario.GetUsers | app/crud/usuario.py:105-127 | 403 iff the caller is not an administrator, and an administrator always gets the listing: as many distinct non-administrator users as exist up to the limit, as stored |
| CrudUsuario.ComValor | app/crud/usuario.py:160-162 | one attribute assignment sets that column and no other and keeps the id |
| CrudUsuario.Permitidos | app/crud/usuario.py:155-158 | a non-administrator's role, e-mail and document are dropped from the request; everything else is kept |
| CrudUsuario.AplicarAtualizacao | app/crud/usuario.py:160-162 | the assignment loop sets exactly the columns sent, skipping the activities, and keeps the rest |
| CrudUsuario.AtividadesApos | app/crud/usuario.py:165-176 | the activities are replaced wholesale by a list that was sent and not null, and otherwise untouched |
| CrudUsuario.UpdateUser | app/crud/usuario.py:130-188 | 404 for an unknown user; 403 when a non-administrator edits someone else; 500 and no change iff a NOT NULL column is set to null; otherwise exactly the permitted columns sent change and the activities follow the rule above |
| CrudUsuario.NotasSemUsuario | app/models/nota_fiscal.py:22-29 | the deleted user's invoices cascade away; the others lose any client that went with the user |
| CrudUsuario.ClientesSemUsuario | app/models/cliente.py:11 | the deleted user's clients cascade away and every other client stays as it was |
| CrudUsuario.DeleteUser | app/crud/usuario.py:191-212 | 400 for deleting oneself, before the lookup; 404 for an unknown user; any other existing user is always deleted, with their clients and their invoices, and other invoices are unlinked from those clients |
| CrudUsuario.NotasAposLote | app/crud/usuario.py:225-231 | after the batch every pending invoice of a user with a rate carries that rate; any other invoice is unchanged; only the rate ever changes |
| CrudUsuario.PassoDoLote | app/crud/usuario.py:233-235 | each user's updated rows are disjoint from the earlier ones, so the counter adds up |
| CrudUsuario.PassoReajuste | app/crud/usuario.py:225-234 | one user's UPDATE matches exactly that user's outdated invoices and leaves the table one user further on |
| CrudUsuario.LoteCompleto | app/crud/usuario.py:216-241 | processing every user with a rate is the whole batch |
| CrudUsuario.AtualizarAliquotasNotasEmLote | app/crud/usuario.py:215-242 | the new table is the batch's result; the users reported are those with a rate; the invoices reported are those whose rate was null or different |
| CrudUsuario.LoteIdempotente | app/crud/usuario.py:226-231 | a second run right after the first finds nothing outdated and changes nothing |

## Left out

- The NFS-e exchange itself is not modelled: the SOAP envelope, the access key and certificate name from the settings, the HTTP call with its 60-second timeout, and XML parsing. The web service is a function parameter from the request to an abstract answer: HTTP failure, malformed XML, or a document with or without the result element.
- Money and rates are integers. The `Numeric(10, 2)`/`Numeric(5, 2)` columns and the `:.2f` formatting are not modelled.
- Lower-casing and digit tests are ASCII-only. Python's Unicode case folding and Unicode digits are not modelled.
- Authentication, password hashing, tokens and e-mail sending are not part of this model. The current user is the user row the token resolves to, so the invoice creation and edit routes require it to be in the store. Creation and emission also require it to equal the stored row, whose rate, role and `emite` flag they read.
- Timestamps (`created_at`, `data_emissao`) are not modelled. The sequences are counters in the store.
- Queries with `LIMIT 1` and no ordering return an arbitrary matching row. The model takes the first in table order (`GetCodigoServicoByCnae`).
- A user's activities have no `order_by`, and the two invoice listings load them in separate queries. The model reads both in one fixed stored order. So `DescUltima`, `DescPrimeira` and `DescDuplicadaDiverge` assume that both queries return the activities in the same order.
- Every request runs as one atomic step; interleavings of concurrent requests are not modelled. In particular, `CrudNotaFiscal.EmitirNotaFinalizada` checks the status, then waits on the web service without a lock before writing status 2. Two overlapping emissions can therefore both submit to the tax authority, and an approval or rejection committed during the call is overwritten by status 2. `AprovadaNuncaEmitida` and `AprovadaNaoEmite` hold only for requests that do not overlap. Likewise, `CrudCliente.CreateCliente` checks and then inserts, with no `UNIQUE` constraint behind it, so `ClientesUnicos` is preserved only when creations run one after another.
- The `UNIQUE` constraints on user e-mail and document, and the foreign keys to the status and role tables, are not modelled.
- `GetUsers`: the offset is left out because its only caller passes 0. The "no users" 404 at app/crud/usuario.py:122-125 is left out because the scalar result it tests is always truthy, so it never fires.
- `ApiNotaFiscal.RecusarNota`: the 404 at app/api/v1/nota_fiscal.py:188-192 is never reached, because the crud either returns the invoice or fails first. A missing invoice fails inside `CrudNotaFiscal.RecusarNotaFiscal` with an unhandled error, modelled as 500.
- `ApiNotaFiscal.EmitirNota`: the branch at app/api/v1/nota_fiscal.py:74-83 cannot be reached after the client lookup and insert, and is left out.
- `ClienteRoutes.DeletarCliente`: the 403 at app/api/v1/cliente_routes.py:98-102 cannot be reached after the 404 ownership check, and is left out.
- The invoice-by-id route and `get_nota_usuario_by_id` / `get_notas_fiscal_by_id` are thin reads with no logic, and are not modelled. So is the `emitir_nota_finalizada_endpoint` route, which only delegates to `CrudNotaFiscal.EmitirNotaFinalizada`. The client listing routes and `get_clientes_by_usuario_id` / `get_todos_os_clientes` are also thin reads and are not modelled.
- Creating a user and the user lookups by e-mail and document (app/crud/usuario.py:18-102) are not modelled. Users enter the store directly.
- The `cliente_id`, `desc_motivo` and `codigo_lista_servico` fields of the invoice creation body are never read by the routes, and are not part of `NotaFiscalCreate`.
- `CrudCliente.EditaCliente`: the keys sent are limited to the client's text columns. An arbitrary key would let `setattr` write any attribute, and that is not modelled.
- `CrudNotaFiscal.UpdateNotaFiscal`: on the 400 for an unknown CNAE code the model keeps `proximoCliente`. In the database, a client inserted by the autoflush before the CNAE lookup has already consumed an id from the sequence, so the rollback leaves a gap in client ids. Such gaps are not modelled; the same holds for `ApiNotaFiscal.AtualizarNota`.
- `CrudUsuario.UpdateUser`: a document sent in the update body is assumed already validated by `UserSchemas.CleanCnpjCpfOpcional`. The replaced activities keep their code and description only; their row ids are not modelled.
- `CrudUsuario.AtualizarAliquotasNotasEmLote`: the updates of one run are staged on a working copy of the invoice table and written back once, as the single commit at the end does. Visibility of intermediate states inside the transaction is not modelled.
- Logging with `print` is not modelled.
