# App component of mercadoWeb, modelled in Dafny

The model covers the `App` component of the storefront inventory screen
(`src/app/app.ts`). It holds four pieces of state:

- the product form (`cadastro`: id, nome, preco, quantidade, categoria);
- the pending deletion candidate (`produtoParaExcluir`);
- whether the confirmation modal is shown;
- the product list.

It has create, update, edit-load, confirm-delete, cancel and delete actions.
An event log, kept in order, records everything the component sends to the
backend, every toast it shows and every exception it throws. A backend
response arrives through one of the handler methods (`OnCriarSucesso`,
`OnExcluirErro`, …). Each handler stands for one `next` or `error` callback
of a subscription, and the caller invokes it.

Files:

- `texto.dfy` (module `Texto`): `toUpperCase` restricted to ASCII. It proves
  that the result has no lower-case letter, keeps the length (so it keeps
  non-emptiness) and is idempotent.
- `app.dfy` (module `AppComponent`): the `Produto` record, the form value,
  requests and events. The form actions are written as functions of the
  form's value (`Criar`, `Alterar`, `Editar`). The `App` class mirrors the
  component's methods, and each method is proved to have exactly the effect
  of those functions. `App.Valid()` is the invariant every method keeps:
  - the modal is shown exactly when there is a candidate;
  - a candidate never has stock;
  - every request in the log passed the component's guards (`Permitido`).
- `propriedades.dfy` (module `Propriedades`): properties that relate several
  actions. They cover resubmission without edits, edit-load followed by an
  update or a create, the cleared form, and the two quirks below.
- `cenarios.dfy` (module `Cenarios`): client methods that drive one `App`
  through typical user sessions and state the whole log that results.

Points where the code's behaviour is easy to misread:

- `const produto = this.cadastro.value` refers to the form group's own value
  object. So the uppercasing (app.ts:71-72, 114-115) is written back into the
  form before the price is checked, and it stays there when the price is
  refused. Pressing the button again without edits sends the same body,
  because uppercasing is idempotent (`CriarReenvio`, `AlterarReenvio`).
- Update does not repeat create's checks: the code checks only the id and the
  price (app.ts:109-120). An empty nome or categoria goes
  out in the PUT (`AlterarEnviaNomeVazio`). A null nome or categoria makes
  `toUpperCase` throw, recorded as an `Uncaught` event.
- `reset()` does not restore ''/0: the controls are typed form controls
  created without `nonNullable`, so each one becomes null (`CADASTRO_VAZIO`).
- A null price is not negative in JavaScript, so a create with no price is
  sent (`CriarEnviaPrecoNulo`).
- The POST body is the whole form value, id included (`EditarEntaoCriar`).
- A delete for a candidate without an id goes to `/excluir/undefined`
  (`IdAusenteComoUndefined`).
- After a delete error the candidate and the modal stay as they were
  (`ExcluirFalha`).

## Model

| member | source | states |
|---|---|---|
| Texto.Upper | src/app/app.ts:71-72 | toUpperCase on ASCII: same length, no lower-case letter left, lower-case letters shifted to their capitals, every other character unchanged |
| Texto.UpperChar | src/app/app.ts:71-72 | one character's upper case: never a lower-case letter, a lower-case letter shifted to its capital, every other character unchanged |
| Texto.UpperFixesNoLower | src/app/app.ts:114-115 | a string with no lower-case letter is its own upper case |
| Texto.UpperIdempotent | src/app/app.ts:71-72 | uppercasing twice equals uppercasing once |
| Texto.UpperEmptyIff | src/app/app.ts:66-72 | uppercasing gives the empty string exactly when the input is empty, so checking emptiness before uppercasing is the same check |
| AppComponent.IdAusenteComoUndefined | src/app/app.ts:151 | a candidate without an id is deleted through the same path as a product whose id is the text "undefined" |
| AppComponent.Truthy | src/app/app.ts:66 | JavaScript truthiness of a string-or-null value: not null and not empty (also app.ts:85, 109) |
| AppComponent.Negativo | src/app/app.ts:74 | the price test `preco! < 0`: a null price is never negative (also app.ts:117) |
| AppComponent.StrOr | src/app/app.ts:98-99 | `s || fallback` on a string: the fallback only when s is empty |
| AppComponent.RealOr | src/app/app.ts:100 | `x || 0` on a price: the fallback only when x is zero |
| AppComponent.IntOr | src/app/app.ts:101 | `x || 0` on a stock count: the fallback only when x is zero |
| AppComponent.MensagemErro | src/app/app.ts:85 | an error toast shows the backend's message when it is non-empty and otherwise the fixed fallback; it is never blank |
| AppComponent.Criar | src/app/app.ts:63-79 | exactly one event. An empty or null nome or categoria gives the required-fields error toast, with the form unchanged. Otherwise nome and categoria are uppercased in the form, and a negative price gives the price error toast. A POST is emitted iff all checks pass; it goes to /criar with the uppercased form, whose price, stock and id pass through unchanged |
| AppComponent.Alterar | src/app/app.ts:107-122 | exactly one event. No id gives the select-a-product toast. A null nome throws before any write; a null categoria throws after nome was uppercased. A negative price gives the price toast after both were uppercased. A PUT to /atualizar/{form id} with the uppercased form is emitted iff id is set, nome and categoria are non-null and the price is not negative; nome and categoria are never checked for emptiness |
| AppComponent.Editar | src/app/app.ts:96-105 | each form field equals the product's field, the id defaults to '' when absent, and one info toast "Editando {nome}" is emitted with no request |
| AppComponent.App.Valid | src/app/app.ts:132-146 | the object invariant every method keeps: the modal is shown exactly when there is a candidate, a candidate has no stock, and every request in the log passed the component's checks (a POST has non-empty uppercase nome and categoria and a non-negative price; a PUT has an id matching its path, uppercase nome and categoria and a non-negative price) |
| AppComponent.App.constructor | src/app/app.ts:22-33 | empty list, no candidate, form '' / 0, empty log; the modal starts hidden, which the template decides and the model assumes; the invariant holds |
| AppComponent.App.ShowToast | src/app/app.ts:40-59 | appends one toast of the given kind and text and changes nothing else |
| AppComponent.App.CriarProduto | src/app/app.ts:63-79 | the form and the log change exactly as Criar says; the list, the candidate and the modal do not change; the invariant is kept |
| AppComponent.App.OnCriarSucesso | src/app/app.ts:80-84 | a success toast naming the stored product, the form reset to null in every control, then a GET of the list |
| AppComponent.App.OnCriarErro | src/app/app.ts:85 | only an error toast with the backend message or "Erro ao criar produto." |
| AppComponent.App.ConsultarProdutos | src/app/app.ts:89-90 | appends one GET to /consultar and nothing else |
| AppComponent.App.OnConsultarSucesso | src/app/app.ts:91 | the list is replaced by the response, not merged |
| AppComponent.App.OnConsultarErro | src/app/app.ts:92 | only an error toast "Erro ao consultar produtos." |
| AppComponent.App.EditarProduto | src/app/app.ts:96-105 | the form and the log change exactly as Editar says, with no request |
| AppComponent.App.AlterarProduto | src/app/app.ts:107-122 | the form and the log change exactly as Alterar says; nothing else changes; the invariant is kept |
| AppComponent.App.OnAlterarSucesso | src/app/app.ts:123-127 | success toast "Produto {nome} atualizado!", form reset, then a GET of the list |
| AppComponent.App.OnAlterarErro | src/app/app.ts:128 | only an error toast with the backend message or "Erro ao atualizar produto." |
| AppComponent.App.ConfirmarExclusao | src/app/app.ts:132-140 | stock > 0: one error toast, candidate and modal unchanged. Stock <= 0: no event, the candidate is exactly the product and the modal is shown |
| AppComponent.App.FecharModal | src/app/app.ts:142-146 | always clears the candidate and hides the modal, with no event |
| AppComponent.App.DeletarProdutoConfirmado | src/app/app.ts:148-151 | with no candidate nothing changes; with one, exactly one DELETE to /excluir/{candidate id} is appended, and that candidate has no stock; the candidate and the modal stay |
| AppComponent.App.OnExcluirSucesso | src/app/app.ts:152-156 | a success toast with the backend's text, the modal closed and the candidate cleared, then a GET of the list |
| AppComponent.App.OnExcluirErro | src/app/app.ts:157 | only an error toast; the candidate and the modal stay set |
| Propriedades.CriarReenvio | src/app/app.ts:64-79 | pressing create twice without edits emits the same events and leaves the form as after the first press |
| Propriedades.AlterarReenvio | src/app/app.ts:108-122 | the same for update, including the paths that throw |
| Propriedades.VazioBloqueia | src/app/app.ts:63-69 | after reset, create gives only the required-fields toast and update only the select-a-product toast |
| Propriedades.EditarEntaoAlterar | src/app/app.ts:96-122 | edit-load of a product with an id, then update: the form holds the product with uppercased nome and categoria, and one PUT to that id carries it unless the price is negative |
| Propriedades.EditarSemIdNaoAltera | src/app/app.ts:96-112 | a product loaded without an id cannot be updated |
| Propriedades.EditarEntaoCriar | src/app/app.ts:64-79 | a create after edit-load posts the loaded id in the body |
| Propriedades.AlterarEnviaNomeVazio | src/app/app.ts:114-122 | update sends a PUT whose nome is empty when the form's nome is empty |
| Propriedades.CriarEnviaPrecoNulo | src/app/app.ts:74-79 | a null price passes the price check and is posted as null |
| Cenarios.UpperMouse | src/app/app.ts:71 | "mouse" uppercases to "MOUSE" |
| Cenarios.UpperPerifericos | src/app/app.ts:72 | "perifericos" uppercases to "PERIFERICOS" |
| Cenarios.CriarComSucesso | src/app/app.ts:63-84 | a filled form, create and backend success give exactly: one POST with the uppercased body, one success toast naming the product, one GET; the form ends reset |
| Cenarios.EditarPrecoNegativo | src/app/app.ts:96-120 | edit-load, a negative price and update give exactly the info toast and the price toast, no request, and the form keeps the entered values |
| Cenarios.ExcluirConfirmado | src/app/app.ts:132-156 | a zero-stock product confirmed and deleted successfully gives exactly: DELETE to its id, a toast with the backend's text, a GET; it ends with no candidate and the modal hidden |
| Cenarios.ExcluirFalha | src/app/app.ts:148-157 | after a delete error the candidate and the modal stay, and confirming again sends the same DELETE |
| Cenarios.CriarDuasVezes | src/app/app.ts:63-85 | a create the backend refuses, pressed again with no edit, posts the same body twice, with nome uppercased, and the error toast shows between the two |
| Cenarios.ExcluirComEstoque | src/app/app.ts:132-151 | a product in stock gives one error toast; confirming afterwards sends nothing, and the candidate and the modal stay unset |

## Left out

- `toUpperCase` is modelled for ASCII letters only. Unicode case mapping is left out: it is locale- and table-dependent and can change a string's length ('ß' becomes "SS").
- HTTP transport and Observables are left out: requests are appended to the log, and each response is a handler method the caller invokes. Ordering, overlap and races between in-flight requests are not modelled.
- The backend's behaviour is left out: the ids it assigns, the messages it returns and the list it sends are parameters of the handlers.
- `err.error` is modelled as an optional string. A non-string error body (rendered as "[object Object]") is not modelled.
- DOM rendering of toasts is left out: markup, CSS classes, styles, the animation and the 4000 ms self-removal. A toast is one log event with its kind and text.
- The `if (!container) return;` branch of `showToast` and the `if (modal)` guards are left out: the model assumes both elements exist, and the modal's visibility is a boolean field.
- Angular wiring is left out: `inject`, signals, `RouterOutlet` and `ngOnInit`, whose only effect is one initial refresh of the list.
- Form controls are left out: user edits are direct assignments to the form's value object. When a control changes, Angular rebuilds that object from the controls. The model records only the object itself.
- Prices are `real`, so NaN, infinities and negative zero are not modelled.
- `quantidade`, a JavaScript number, is an `int`, so fractional and NaN stock counts are not represented.
- Runtime data that violates the `Produto` interface (a null nome from the backend, say) is not modelled. Only the id is optional.
- The history of deletions is not tracked. The no-stock guarantee is stated through the invariant on the candidate, the only source of a DELETE.
