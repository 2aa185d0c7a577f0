/** The App component of the storefront inventory screen: a product form,
    a delete gate guarded by a confirmation modal, and the requests and
    toasts the component emits. HTTP requests, toasts and uncaught
    exceptions are recorded, in order, in an event log; the responses of
    the backend arrive through the handler methods On... that stand for
    the next/error callbacks of each subscription. */
module AppComponent {
  import opened Texto

  datatype Option<T> = None | Some(value: T)

  /** The Produto record: the id is optional (absent before the backend
      assigns one). */
  datatype Produto = Produto(id: Option<string>, nome: string, preco: real, quantidade: int, categoria: string)

  /** The value object of the cadastro form group. Every control of an
      Angular typed form created without nonNullable may hold null, which
      is what reset() puts in each of them. */
  datatype Cadastro = Cadastro(
    id: Option<string>,
    nome: Option<string>,
    preco: Option<real>,
    quantidade: Option<int>,
    categoria: Option<string>)

  datatype Kind = Success | Error | Info

  datatype Verb = Get | Post | Put | Delete

  datatype Request = Request(verb: Verb, url: string, body: Option<Cadastro>)

  datatype Event =
    | Send(req: Request)
    | Toast(kind: Kind, message: string)
    | Uncaught(error: string)

  /** The result of one action on the form: the form's new value and what
      the action emitted. */
  datatype Efeito = Efeito(cadastro: Cadastro, eventos: seq<Event>)

  const BASE_URL := "http://localhost:8083/api/v1/produtos"
  const CONSULTAR_URL := BASE_URL + "/consultar"
  const CRIAR_URL := BASE_URL + "/criar"
  const ATUALIZAR_URL := BASE_URL + "/atualizar/"
  const EXCLUIR_URL := BASE_URL + "/excluir/"

  const MSG_OBRIGATORIOS := "Preencha todos os campos obrigatórios."
  const MSG_PRECO_NEGATIVO := "O preço não pode ser negativo."
  const MSG_SELECIONE := "Selecione um produto para editar."
  const MSG_ESTOQUE := "Não é possível excluir produtos com estoque > 0."
  const MSG_ERRO_CRIAR := "Erro ao criar produto."
  const MSG_ERRO_ATUALIZAR := "Erro ao atualizar produto."
  const MSG_ERRO_EXCLUIR := "Erro ao excluir produto."
  const MSG_ERRO_CONSULTAR := "Erro ao consultar produtos."
  /** Calling toUpperCase on a null control value. */
  const TYPE_ERROR := "TypeError"

  /** The form's value when the component is created. */
  const CADASTRO_INICIAL := Cadastro(Some(""), Some(""), Some(0.0), Some(0), Some(""))
  /** The form's value after cadastro.reset(). */
  const CADASTRO_VAZIO: Cadastro := Cadastro(None, None, None, None, None)

  /** JavaScript truthiness of a string-or-null value. */
  predicate Truthy(v: Option<string>) {
    v.Some? && v.value != ""
  }

  /** The price test `preco! < 0`; a null price compares as 0 and passes. */
  predicate Negativo(preco: Option<real>) {
    preco.Some? && preco.value < 0.0
  }

  /** A template literal `${id}` over the optional id of a Produto. */
  function IdTexto(id: Option<string>): string {
    match id
    case Some(s) => s
    case None => "undefined"
  }

  /** A candidate without an id is deleted through the same path as a
      product whose id is the text "undefined". */
  lemma IdAusenteComoUndefined()
    ensures IdTexto(None) == IdTexto(Some("undefined"))
    ensures EXCLUIR_URL + IdTexto(None) == EXCLUIR_URL + "undefined"
  {
  }

  /** `err.error || fallback`: the backend's message when it sent a
      non-empty one, otherwise the fixed fallback; never a blank toast. */
  function MensagemErro(err: Option<string>, fallback: string): (m: string)
    requires fallback != ""
    ensures m != ""
    ensures Truthy(err) ==> m == err.value
    ensures !Truthy(err) ==> m == fallback
  {
    if Truthy(err) then err.value else fallback
  }

  // ---------------------------------------------------------------
  // What may leave the client

  /** The body of a POST to /criar passed every check of criarProduto. */
  predicate CorpoCriacao(c: Cadastro) {
    Truthy(c.nome) && Truthy(c.categoria)
    && NoLower(c.nome.value) && NoLower(c.categoria.value)
    && !Negativo(c.preco)
  }

  /** The body of a PUT passed every check of alterarProduto; nome and
      categoria are upper case but may be empty. */
  predicate CorpoAlteracao(c: Cadastro) {
    Truthy(c.id) && c.nome.Some? && c.categoria.Some?
    && NoLower(c.nome.value) && NoLower(c.categoria.value)
    && !Negativo(c.preco)
  }

  predicate Permitido(r: Request) {
    match r.verb
    case Get => r.url == CONSULTAR_URL && r.body.None?
    case Post => r.url == CRIAR_URL && r.body.Some? && CorpoCriacao(r.body.value)
    case Put =>
      r.body.Some? && CorpoAlteracao(r.body.value)
      && r.url == ATUALIZAR_URL + r.body.value.id.value
    case Delete => EXCLUIR_URL <= r.url && r.body.None?
  }

  /** Every request in the log is one the component's guards let through. */
  ghost predicate LogPermitido(log: seq<Event>) {
    forall i :: 0 <= i < |log| && log[i].Send? ==> Permitido(log[i].req)
  }

  lemma LogPermitidoAppend(a: seq<Event>, b: seq<Event>)
    requires LogPermitido(a) && LogPermitido(b)
    ensures LogPermitido(a + b)
  {
    forall i | 0 <= i < |a + b| && (a + b)[i].Send? ensures Permitido((a + b)[i].req) {
      if i >= |a| {
        assert (a + b)[i] == b[i - |a|];
      }
    }
  }

  // ---------------------------------------------------------------
  // The actions on the form, as functions of the form's value

  /** criarProduto. The local `produto` is the form group's own value
      object, so the upper-casing is written back into the form before the
      price is checked, and stays there when the price is refused. */
  function Criar(f: Cadastro): (e: Efeito)
    ensures |e.eventos| == 1
    ensures e.eventos[0].Send? <==> Truthy(f.nome) && Truthy(f.categoria) && !Negativo(f.preco)
    ensures !Truthy(f.nome) || !Truthy(f.categoria) ==> e == Efeito(f, [Toast(Error, MSG_OBRIGATORIOS)])
    ensures Truthy(f.nome) && Truthy(f.categoria) ==>
              e.cadastro == f.(nome := Some(Upper(f.nome.value)), categoria := Some(Upper(f.categoria.value)))
    ensures Truthy(f.nome) && Truthy(f.categoria) && Negativo(f.preco) ==>
              e.eventos == [Toast(Error, MSG_PRECO_NEGATIVO)]
    ensures e.eventos[0].Send? ==>
              e.eventos[0].req == Request(Post, CRIAR_URL, Some(e.cadastro)) && CorpoCriacao(e.cadastro)
  {
    if !Truthy(f.nome) || !Truthy(f.categoria) then
      Efeito(f, [Toast(Error, MSG_OBRIGATORIOS)])
    else
      var produto := f.(nome := Some(Upper(f.nome.value)), categoria := Some(Upper(f.categoria.value)));
      if Negativo(produto.preco) then
        Efeito(produto, [Toast(Error, MSG_PRECO_NEGATIVO)])
      else
        Efeito(produto, [Send(Request(Post, CRIAR_URL, Some(produto)))])
  }

  /** alterarProduto. Only the id and the price are checked; a null nome
      or categoria makes toUpperCase throw, after nome has already been
      written back when only categoria is null. */
  function Alterar(f: Cadastro): (e: Efeito)
    ensures |e.eventos| == 1
    ensures e.eventos[0].Send? <==>
              Truthy(f.id) && f.nome.Some? && f.categoria.Some? && !Negativo(f.preco)
    ensures !Truthy(f.id) ==> e == Efeito(f, [Toast(Error, MSG_SELECIONE)])
    ensures Truthy(f.id) && f.nome.None? ==> e == Efeito(f, [Uncaught(TYPE_ERROR)])
    ensures Truthy(f.id) && f.nome.Some? && f.categoria.None? ==>
              e == Efeito(f.(nome := Some(Upper(f.nome.value))), [Uncaught(TYPE_ERROR)])
    ensures Truthy(f.id) && f.nome.Some? && f.categoria.Some? ==>
              e.cadastro == f.(nome := Some(Upper(f.nome.value)), categoria := Some(Upper(f.categoria.value)))
    ensures Truthy(f.id) && f.nome.Some? && f.categoria.Some? && Negativo(f.preco) ==>
              e.eventos == [Toast(Error, MSG_PRECO_NEGATIVO)]
    ensures e.eventos[0].Send? ==>
              e.eventos[0].req == Request(Put, ATUALIZAR_URL + f.id.value, Some(e.cadastro))
              && CorpoAlteracao(e.cadastro)
  {
    if !Truthy(f.id) then
      Efeito(f, [Toast(Error, MSG_SELECIONE)])
    else if f.nome.None? then
      Efeito(f, [Uncaught(TYPE_ERROR)])
    else
      var comNome := f.(nome := Some(Upper(f.nome.value)));
      if comNome.categoria.None? then
        Efeito(comNome, [Uncaught(TYPE_ERROR)])
      else
        var produto := comNome.(categoria := Some(Upper(f.categoria.value)));
        if Negativo(produto.preco) then
          Efeito(produto, [Toast(Error, MSG_PRECO_NEGATIVO)])
        else
          Efeito(produto, [Send(Request(Put, ATUALIZAR_URL + produto.id.value, Some(produto)))])
  }

  /** `v || fallback` on a string. */
  function StrOr(s: string, fallback: string): string {
    if s != "" then s else fallback
  }

  /** `v || fallback` on a number. */
  function RealOr(x: real, fallback: real): real {
    if x != 0.0 then x else fallback
  }

  function IntOr(x: int, fallback: int): int {
    if x != 0 then x else fallback
  }

  /** editarProduto. Each field is copied with `|| ''` or `|| 0`; for the
      typed fields the fallback only ever replaces a value by itself, so
      only an absent id is defaulted. No request is emitted. */
  function Editar(p: Produto): (e: Efeito)
    ensures e.cadastro.id == Some(if p.id.Some? then p.id.value else "")
    ensures e.cadastro.nome == Some(p.nome) && e.cadastro.categoria == Some(p.categoria)
    ensures e.cadastro.preco == Some(p.preco) && e.cadastro.quantidade == Some(p.quantidade)
    ensures e.eventos == [Toast(Info, "Editando " + p.nome)]
  {
    var id := if p.id.Some? then StrOr(p.id.value, "") else "";
    Efeito(
      Cadastro(Some(id), Some(StrOr(p.nome, "")), Some(RealOr(p.preco, 0.0)),
               Some(IntOr(p.quantidade, 0)), Some(StrOr(p.categoria, ""))),
      [Toast(Info, "Editando " + p.nome)])
  }

  lemma EfeitoPermitido(e: Efeito)
    requires |e.eventos| == 1
    requires e.eventos[0].Send? ==> Permitido(e.eventos[0].req)
    ensures LogPermitido(e.eventos)
  {
  }

  // ---------------------------------------------------------------
  // The component

  class App {
    /** The list shown on screen, replaced on every refresh. */
    var produtos: seq<Produto>
    /** produtoParaExcluir: the pending deletion candidate. */
    var produtoParaExcluir: Option<Produto>
    /** The display style of the confirmation modal: flex or none. */
    var modalVisivel: bool
    /** The value of the cadastro form group. */
    var cadastro: Cadastro
    /** Requests sent, toasts shown and exceptions thrown, in order. */
    var log: seq<Event>

    /** The delete gate is either idle (no candidate, modal hidden) or
        pending (a zero-stock candidate, modal shown), and no request that
        fails the component's guards was ever sent. */
    ghost predicate Valid()
      reads this
    {
      (modalVisivel <==> produtoParaExcluir.Some?)
      && (produtoParaExcluir.Some? ==> produtoParaExcluir.value.quantidade <= 0)
      && LogPermitido(log)
    }

    constructor ()
      ensures Valid()
      ensures produtos == [] && produtoParaExcluir == None && !modalVisivel
      ensures cadastro == CADASTRO_INICIAL && log == []
    {
      produtos := [];
      produtoParaExcluir := None;
      modalVisivel := false;
      cadastro := CADASTRO_INICIAL;
      log := [];
    }

    method ShowToast(message: string, kind: Kind)
      requires Valid()
      modifies this`log
      ensures Valid()
      ensures log == old(log) + [Toast(kind, message)]
    {
      LogPermitidoAppend(log, [Toast(kind, message)]);
      log := log + [Toast(kind, message)];
    }

    method CriarProduto()
      requires Valid()
      modifies this`cadastro, this`log
      ensures Valid()
      ensures cadastro == Criar(old(cadastro)).cadastro
      ensures log == old(log) + Criar(old(cadastro)).eventos
    {
      EfeitoPermitido(Criar(cadastro));
      LogPermitidoAppend(log, Criar(cadastro).eventos);
      if !Truthy(cadastro.nome) || !Truthy(cadastro.categoria) {
        ShowToast(MSG_OBRIGATORIOS, Error);
        return;
      }
      cadastro := cadastro.(nome := Some(Upper(cadastro.nome.value)));
      cadastro := cadastro.(categoria := Some(Upper(cadastro.categoria.value)));
      if Negativo(cadastro.preco) {
        ShowToast(MSG_PRECO_NEGATIVO, Error);
        return;
      }
      log := log + [Send(Request(Post, CRIAR_URL, Some(cadastro)))];
    }

    /** next callback of the POST: `data` is the nome the backend echoes. */
    method OnCriarSucesso(data: string)
      requires Valid()
      modifies this`cadastro, this`log
      ensures Valid()
      ensures cadastro == CADASTRO_VAZIO
      ensures log == old(log) + [Toast(Success, "Produto " + data + " cadastrado com sucesso!"),
                                 Send(Request(Get, CONSULTAR_URL, None))]
    {
      ShowToast("Produto " + data + " cadastrado com sucesso!", Success);
      cadastro := CADASTRO_VAZIO;
      ConsultarProdutos();
    }

    /** error callback of the POST: `err` is the error body, if any. */
    method OnCriarErro(err: Option<string>)
      requires Valid()
      modifies this`log
      ensures Valid()
      ensures log == old(log) + [Toast(Error, MensagemErro(err, MSG_ERRO_CRIAR))]
    {
      ShowToast(MensagemErro(err, MSG_ERRO_CRIAR), Error);
    }

    method ConsultarProdutos()
      requires Valid()
      modifies this`log
      ensures Valid()
      ensures log == old(log) + [Send(Request(Get, CONSULTAR_URL, None))]
    {
      LogPermitidoAppend(log, [Send(Request(Get, CONSULTAR_URL, None))]);
      log := log + [Send(Request(Get, CONSULTAR_URL, None))];
    }

    /** next callback of the GET: the list is replaced, not merged. */
    method OnConsultarSucesso(data: seq<Produto>)
      requires Valid()
      modifies this`produtos
      ensures Valid()
      ensures produtos == data
    {
      produtos := data;
    }

    method OnConsultarErro()
      requires Valid()
      modifies this`log
      ensures Valid()
      ensures log == old(log) + [Toast(Error, MSG_ERRO_CONSULTAR)]
    {
      ShowToast(MSG_ERRO_CONSULTAR, Error);
    }

    method EditarProduto(p: Produto)
      requires Valid()
      modifies this`cadastro, this`log
      ensures Valid()
      ensures cadastro == Editar(p).cadastro
      ensures log == old(log) + Editar(p).eventos
    {
      var id := if p.id.Some? then StrOr(p.id.value, "") else "";
      cadastro := Cadastro(Some(id), Some(StrOr(p.nome, "")), Some(RealOr(p.preco, 0.0)),
                           Some(IntOr(p.quantidade, 0)), Some(StrOr(p.categoria, "")));
      ShowToast("Editando " + p.nome, Info);
    }

    method AlterarProduto()
      requires Valid()
      modifies this`cadastro, this`log
      ensures Valid()
      ensures cadastro == Alterar(old(cadastro)).cadastro
      ensures log == old(log) + Alterar(old(cadastro)).eventos
    {
      EfeitoPermitido(Alterar(cadastro));
      LogPermitidoAppend(log, Alterar(cadastro).eventos);
      if !Truthy(cadastro.id) {
        ShowToast(MSG_SELECIONE, Error);
        return;
      }
      if cadastro.nome.None? {
        log := log + [Uncaught(TYPE_ERROR)];
        return;
      }
      cadastro := cadastro.(nome := Some(Upper(cadastro.nome.value)));
      if cadastro.categoria.None? {
        log := log + [Uncaught(TYPE_ERROR)];
        return;
      }
      cadastro := cadastro.(categoria := Some(Upper(cadastro.categoria.value)));
      if Negativo(cadastro.preco) {
        ShowToast(MSG_PRECO_NEGATIVO, Error);
        return;
      }
      log := log + [Send(Request(Put, ATUALIZAR_URL + cadastro.id.value, Some(cadastro)))];
    }

    method OnAlterarSucesso(data: string)
      requires Valid()
      modifies this`cadastro, this`log
      ensures Valid()
      ensures cadastro == CADASTRO_VAZIO
      ensures log == old(log) + [Toast(Success, "Produto " + data + " atualizado!"),
                                 Send(Request(Get, CONSULTAR_URL, None))]
    {
      ShowToast("Produto " + data + " atualizado!", Success);
      cadastro := CADASTRO_VAZIO;
      ConsultarProdutos();
    }

    method OnAlterarErro(err: Option<string>)
      requires Valid()
      modifies this`log
      ensures Valid()
      ensures log == old(log) + [Toast(Error, MensagemErro(err, MSG_ERRO_ATUALIZAR))]
    {
      ShowToast(MensagemErro(err, MSG_ERRO_ATUALIZAR), Error);
    }

    /** Idle -> pending, refused for a product that is still in stock. */
    method ConfirmarExclusao(p: Produto)
      requires Valid()
      modifies this`log, this`produtoParaExcluir, this`modalVisivel
      ensures Valid()
      ensures p.quantidade > 0 ==>
                log == old(log) + [Toast(Error, MSG_ESTOQUE)]
                && produtoParaExcluir == old(produtoParaExcluir) && modalVisivel == old(modalVisivel)
      ensures p.quantidade <= 0 ==>
                log == old(log) && produtoParaExcluir == Some(p) && modalVisivel
    {
      if p.quantidade > 0 {
        ShowToast(MSG_ESTOQUE, Error);
        return;
      }
      produtoParaExcluir := Some(p);
      modalVisivel := true;
    }

    /** Back to idle, from whatever state. */
    method FecharModal()
      requires Valid()
      modifies this`produtoParaExcluir, this`modalVisivel
      ensures Valid()
      ensures produtoParaExcluir == None && !modalVisivel
    {
      modalVisivel := false;
      produtoParaExcluir := None;
    }

    method DeletarProdutoConfirmado()
      requires Valid()
      modifies this`log
      ensures Valid()
      ensures produtoParaExcluir.None? ==> log == old(log)
      ensures produtoParaExcluir.Some? ==> produtoParaExcluir.value.quantidade <= 0
      ensures produtoParaExcluir.Some? ==>
                log == old(log) + [Send(Request(Delete, EXCLUIR_URL + IdTexto(produtoParaExcluir.value.id), None))]
    {
      if produtoParaExcluir.None? {
        return;
      }
      var r := Request(Delete, EXCLUIR_URL + IdTexto(produtoParaExcluir.value.id), None);
      LogPermitidoAppend(log, [Send(r)]);
      log := log + [Send(r)];
    }

    /** next callback of the DELETE: `msg` is the backend's text. */
    method OnExcluirSucesso(msg: string)
      requires Valid()
      modifies this`log, this`produtoParaExcluir, this`modalVisivel
      ensures Valid()
      ensures produtoParaExcluir == None && !modalVisivel
      ensures log == old(log) + [Toast(Success, msg), Send(Request(Get, CONSULTAR_URL, None))]
    {
      ShowToast(msg, Success);
      FecharModal();
      ConsultarProdutos();
    }

    /** error callback of the DELETE: the gate stays pending. */
    method OnExcluirErro(err: Option<string>)
      requires Valid()
      modifies this`log
      ensures Valid()
      ensures log == old(log) + [Toast(Error, MensagemErro(err, MSG_ERRO_EXCLUIR))]
    {
      ShowToast(MensagemErro(err, MSG_ERRO_EXCLUIR), Error);
    }
  }
}
