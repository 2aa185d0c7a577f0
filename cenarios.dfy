/** Sequences of user actions and backend responses on one App, checked
    against what the component is meant to show and send. */
module Cenarios {
  import opened Texto
  import opened AppComponent

  /** The concrete case: "mouse" in "perifericos" is posted as MOUSE in
      PERIFERICOS. */
  lemma UpperMouse()
    ensures Upper("mouse") == "MOUSE"
  {
  }

  lemma UpperPerifericos()
    ensures Upper("perifericos") == "PERIFERICOS"
  {
  }

  /** Fill the form, create, and let the backend answer with `resposta` as
      the nome it stored: one POST with nome and categoria upper-cased and
      price and stock passed through, a success toast naming the product,
      a cleared form and a refresh of the list. */
  method CriarComSucesso(nome: string, preco: real, quantidade: int, categoria: string, resposta: string)
    returns (log: seq<Event>, cadastro: Cadastro)
    requires nome != "" && categoria != "" && preco >= 0.0
    ensures log == [
      Send(Request(Post, CRIAR_URL,
        Some(Cadastro(Some(""), Some(Upper(nome)), Some(preco), Some(quantidade), Some(Upper(categoria)))))),
      Toast(Success, "Produto " + resposta + " cadastrado com sucesso!"),
      Send(Request(Get, CONSULTAR_URL, None))]
    ensures cadastro == CADASTRO_VAZIO
  {
    var app := new App();
    app.cadastro := Cadastro(Some(""), Some(nome), Some(preco), Some(quantidade), Some(categoria));
    app.CriarProduto();
    app.OnCriarSucesso(resposta);
    log, cadastro := app.log, app.cadastro;
  }

  /** Load a stored product for editing, give it a negative price and
      update: nothing is sent, and since the stored nome and categoria are
      already upper case the form keeps exactly what was entered. */
  method EditarPrecoNegativo(p: Produto, preco: real) returns (log: seq<Event>, cadastro: Cadastro)
    requires p.id.Some? && p.id.value != "" && preco < 0.0
    requires NoLower(p.nome) && NoLower(p.categoria)
    ensures log == [Toast(Info, "Editando " + p.nome), Toast(Error, MSG_PRECO_NEGATIVO)]
    ensures cadastro == Cadastro(p.id, Some(p.nome), Some(preco), Some(p.quantidade), Some(p.categoria))
  {
    var app := new App();
    app.EditarProduto(p);
    app.cadastro := app.cadastro.(preco := Some(preco));
    UpperFixesNoLower(p.nome);
    UpperFixesNoLower(p.categoria);
    app.AlterarProduto();
    log, cadastro := app.log, app.cadastro;
  }

  /** Delete a zero-stock product: the DELETE goes to its id, the backend's
      text is shown, the modal closes and the list is fetched again. */
  method ExcluirConfirmado(p: Produto, texto: string) returns (log: seq<Event>, candidato: Option<Produto>, modal: bool)
    requires p.quantidade == 0 && p.id.Some?
    ensures log == [
      Send(Request(Delete, EXCLUIR_URL + p.id.value, None)),
      Toast(Success, texto),
      Send(Request(Get, CONSULTAR_URL, None))]
    ensures candidato == None && !modal
  {
    var app := new App();
    app.ConfirmarExclusao(p);
    app.DeletarProdutoConfirmado();
    app.OnExcluirSucesso(texto);
    log, candidato, modal := app.log, app.produtoParaExcluir, app.modalVisivel;
  }

  /** A failed delete leaves the gate pending on the same candidate, so a
      second confirmation sends the same DELETE again. */
  method ExcluirFalha(p: Produto, err: Option<string>) returns (log: seq<Event>, candidato: Option<Produto>, modal: bool)
    requires p.quantidade <= 0
    ensures candidato == Some(p) && modal
    ensures var r := Send(Request(Delete, EXCLUIR_URL + IdTexto(p.id), None));
      log == [r, Toast(Error, MensagemErro(err, MSG_ERRO_EXCLUIR)), r]
  {
    var app := new App();
    app.ConfirmarExclusao(p);
    app.DeletarProdutoConfirmado();
    app.OnExcluirErro(err);
    app.DeletarProdutoConfirmado();
    log, candidato, modal := app.log, app.produtoParaExcluir, app.modalVisivel;
  }

  /** A product in stock never reaches the modal, and confirming then
      sends nothing; cancelling sends nothing either. */
  method ExcluirComEstoque(p: Produto) returns (log: seq<Event>, candidato: Option<Produto>, modal: bool)
    requires p.quantidade > 0
    ensures log == [Toast(Error, MSG_ESTOQUE)]
    ensures candidato == None && !modal
  {
    var app := new App();
    app.ConfirmarExclusao(p);
    app.DeletarProdutoConfirmado();
    app.FecharModal();
    log, candidato, modal := app.log, app.produtoParaExcluir, app.modalVisivel;
  }

  /** A create that the backend refuses, pressed again with no edit, posts
      the same body twice. */
  method CriarDuasVezes(f: Cadastro, err: Option<string>) returns (log: seq<Event>)
    requires Truthy(f.nome) && Truthy(f.categoria) && !Negativo(f.preco)
    ensures |log| == 3 && log[0] == log[2] && log[0].Send? && log[0].req.verb == Post
    ensures log[0].req.body.Some? && log[0].req.body.value.nome == Some(Upper(f.nome.value))
    ensures log[1] == Toast(Error, MensagemErro(err, MSG_ERRO_CRIAR))
  {
    var app := new App();
    app.cadastro := f;
    app.CriarProduto();
    app.OnCriarErro(err);
    ghost var depois := app.cadastro;
    app.CriarProduto();
    assert Criar(depois) == Criar(f) by {
      UpperIdempotent(f.nome.value);
      UpperIdempotent(f.categoria.value);
    }
    log := app.log;
  }
}
