/** Properties that relate several actions on the form. */
module Propriedades {
  import opened Texto
  import opened AppComponent

  /** Pressing create again without touching the form: the first press
      already upper-cased nome and categoria in place, and the second
      press emits exactly what the first did and leaves the form as it
      was. */
  lemma CriarReenvio(f: Cadastro)
    ensures Criar(Criar(f).cadastro) == Criar(f)
  {
    if Truthy(f.nome) && Truthy(f.categoria) {
      UpperIdempotent(f.nome.value);
      UpperIdempotent(f.categoria.value);
    }
  }

  /** The same for update, including the paths that throw. */
  lemma AlterarReenvio(f: Cadastro)
    ensures Alterar(Alterar(f).cadastro) == Alterar(f)
  {
    if Truthy(f.id) && f.nome.Some? {
      UpperIdempotent(f.nome.value);
      if f.categoria.Some? {
        UpperIdempotent(f.categoria.value);
      }
    }
  }

  /** After reset() every control is null: neither create nor update can
      send anything until the form is filled again. */
  lemma VazioBloqueia()
    ensures Criar(CADASTRO_VAZIO) == Efeito(CADASTRO_VAZIO, [Toast(Error, MSG_OBRIGATORIOS)])
    ensures Alterar(CADASTRO_VAZIO) == Efeito(CADASTRO_VAZIO, [Toast(Error, MSG_SELECIONE)])
  {
  }

  /** Loading a product with an id and then updating sends one PUT to that
      id, carrying the product with nome and categoria upper-cased, unless
      its price is negative. */
  lemma EditarEntaoAlterar(p: Produto)
    requires p.id.Some? && p.id.value != ""
    ensures var e := Alterar(Editar(p).cadastro);
      var corpo := Cadastro(p.id, Some(Upper(p.nome)), Some(p.preco), Some(p.quantidade), Some(Upper(p.categoria)));
      e.cadastro == corpo
      && e.eventos == if p.preco < 0.0 then [Toast(Error, MSG_PRECO_NEGATIVO)]
                      else [Send(Request(Put, ATUALIZAR_URL + p.id.value, Some(corpo)))]
  {
  }

  /** A product loaded without an id cannot be updated. */
  lemma EditarSemIdNaoAltera(p: Produto)
    requires p.id.None?
    ensures Alterar(Editar(p).cadastro).eventos == [Toast(Error, MSG_SELECIONE)]
  {
  }

  /** Creating from a form loaded for editing sends the loaded id in the
      POST body, since the whole form value is posted. */
  lemma EditarEntaoCriar(p: Produto)
    requires p.id.Some? && p.nome != "" && p.categoria != "" && p.preco >= 0.0
    ensures var e := Criar(Editar(p).cadastro);
      e.eventos[0].Send? && e.eventos[0].req.body.value.id == p.id
  {
  }

  /** Update does not check nome or categoria for emptiness: an empty nome
      goes out in the PUT body. */
  lemma AlterarEnviaNomeVazio(f: Cadastro)
    requires Truthy(f.id) && f.nome == Some("") && f.categoria.Some? && !Negativo(f.preco)
    ensures Alterar(f).eventos[0].Send?
    ensures Alterar(f).eventos[0].req.body.value.nome == Some("")
  {
  }

  /** A null price is not negative: create sends the body with no price. */
  lemma CriarEnviaPrecoNulo(f: Cadastro)
    requires Truthy(f.nome) && Truthy(f.categoria) && f.preco.None?
    ensures Criar(f).eventos[0].Send?
    ensures Criar(f).eventos[0].req.body.value.preco == None
  {
  }
}
