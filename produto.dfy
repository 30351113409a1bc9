/**
 * The catalog item entity: its validation rules, the stock arithmetic, and the
 * `Produto` object whose fields the source updates in place.
 */
module ProdutoEntity {
  import opened Base
  import opened JavaLang

  /** A `LocalDateTime`; only ever stored and compared, never inspected. */
  datatype Instante = Instante(ticks: int)

  /** The seven checks of the two validation passes, in the order they run. */
  datatype Regra =
    | NomeObrigatorio       // nome null or blank
    | PrecoObrigatorio      // preco null
    | EstoqueObrigatorio    // estoque null
    | CategoriaObrigatoria  // categoria null or blank
    | PrecoNaoPositivo      // preco <= 0
    | EstoqueNegativo       // estoque < 0
    | NomeTamanhoInvalido   // raw nome length outside [3, 100]

  /** The `IllegalArgumentException`s the entity throws. */
  datatype ErroDominio =
    | Invalido(regra: Regra)
    | QuantidadeNaoPositiva
    | EstoqueInsuficiente(disponivel: Int32)

  /** The fields a validation pass looks at. */
  datatype Campos = Campos(nome: Option<string>, preco: Option<real>, estoque: Option<Int32>, categoria: Option<string>)

  /** Every field of an item, as stored and as copied between layers. */
  datatype ProdutoDados = ProdutoDados(
    id: Option<int>,
    nome: Option<string>,
    descricao: Option<string>,
    preco: Option<real>,
    estoque: Option<Int32>,
    categoria: Option<string>,
    dataCriacao: Option<Instante>)
  {
    function Validados(): Campos { Campos(nome, preco, estoque, categoria) }
  }

  const MinNome: int := 3
  const MaxNome: int := 100

  /** The order in which the checks run; the first one violated decides the error. */
  const Ordem: seq<Regra> := [NomeObrigatorio, PrecoObrigatorio, EstoqueObrigatorio,
    CategoriaObrigatoria, PrecoNaoPositivo, EstoqueNegativo, NomeTamanhoInvalido]

  function Posicao(r: Regra): (k: nat)
    ensures k < |Ordem| && Ordem[k] == r
  {
    match r
    case NomeObrigatorio => 0
    case PrecoObrigatorio => 1
    case EstoqueObrigatorio => 2
    case CategoriaObrigatoria => 3
    case PrecoNaoPositivo => 4
    case EstoqueNegativo => 5
    case NomeTamanhoInvalido => 6
  }

  predicate Ausente(s: Option<string>)
  {
    s.None? || EmBranco(s.value)
  }

  /** What it means for fields to break one rule, taken on its own. */
  predicate Violada(r: Regra, c: Campos)
  {
    match r
    case NomeObrigatorio => Ausente(c.nome)
    case PrecoObrigatorio => c.preco.None?
    case EstoqueObrigatorio => c.estoque.None?
    case CategoriaObrigatoria => Ausente(c.categoria)
    case PrecoNaoPositivo => c.preco.Some? && c.preco.value <= 0.0
    case EstoqueNegativo => c.estoque.Some? && c.estoque.value < 0
    case NomeTamanhoInvalido => c.nome.Some? && !(MinNome <= |c.nome.value| <= MaxNome)
  }

  /** The item invariant: what every successfully validated set of fields satisfies. */
  predicate CamposValidos(c: Campos)
  {
    && c.nome.Some? && !EmBranco(c.nome.value) && MinNome <= |c.nome.value| <= MaxNome
    && c.preco.Some? && c.preco.value > 0.0
    && c.estoque.Some? && c.estoque.value >= 0
    && c.categoria.Some? && !EmBranco(c.categoria.value)
  }

  /** `validarCamposObrigatorios`: the presence checks. */
  function ValidarCamposObrigatorios(nome: Option<string>, preco: Option<real>,
                                     estoque: Option<Int32>, categoria: Option<string>): (r: Option<Regra>)
    ensures r.None? <==> !Ausente(nome) && preco.Some? && estoque.Some? && !Ausente(categoria)
    ensures r.Some? ==> Posicao(r.value) <= 3
  {
    if Ausente(nome) then Some(NomeObrigatorio)
    else if preco.None? then Some(PrecoObrigatorio)
    else if estoque.None? then Some(EstoqueObrigatorio)
    else if Ausente(categoria) then Some(CategoriaObrigatoria)
    else None
  }

  /** `validarRegrasDeNegocio`: the value checks, run only on fields already present. */
  function ValidarRegrasDeNegocio(preco: real, estoque: Int32, nome: string): (r: Option<Regra>)
    ensures r.None? <==> preco > 0.0 && estoque >= 0 && MinNome <= |nome| <= MaxNome
    ensures r.Some? ==> Posicao(r.value) >= 4
  {
    if preco <= 0.0 then Some(PrecoNaoPositivo)
    else if estoque < 0 then Some(EstoqueNegativo)
    else if |nome| < MinNome || |nome| > MaxNome then Some(NomeTamanhoInvalido)
    else None
  }

  /**
   * Both passes, as the creation constructor and `atualizar` run them. None means
   * the fields are accepted. The result is exactly the first rule, in `Ordem`,
   * that the fields break, and the fields are accepted exactly when they satisfy
   * the item invariant.
   */
  function Validar(nome: Option<string>, preco: Option<real>,
                   estoque: Option<Int32>, categoria: Option<string>): (r: Option<Regra>)
    ensures r.None? <==> CamposValidos(Campos(nome, preco, estoque, categoria))
    ensures r.None? <==> forall k | 0 <= k < |Ordem| :: !Violada(Ordem[k], Campos(nome, preco, estoque, categoria))
    ensures r.Some? ==> Violada(r.value, Campos(nome, preco, estoque, categoria))
    ensures r.Some? ==> forall k | 0 <= k < Posicao(r.value) :: !Violada(Ordem[k], Campos(nome, preco, estoque, categoria))
  {
    var obrigatorios := ValidarCamposObrigatorios(nome, preco, estoque, categoria);
    if obrigatorios.Some? then obrigatorios
    else ValidarRegrasDeNegocio(preco.value, estoque.value, nome.value)
  }

  /** The message of each exception, as the source words it. */
  function Mensagem(e: ErroDominio): string
  {
    match e
    case Invalido(NomeObrigatorio) => "Nome do produto é obrigatório"
    case Invalido(PrecoObrigatorio) => "Preço é obrigatório"
    case Invalido(EstoqueObrigatorio) => "Estoque é obrigatório"
    case Invalido(CategoriaObrigatoria) => "Categoria é obrigatória"
    case Invalido(PrecoNaoPositivo) => "Preço deve ser maior que zero"
    case Invalido(EstoqueNegativo) => "Estoque não pode ser negativo"
    case Invalido(NomeTamanhoInvalido) => "Nome deve ter entre 3 e 100 caracteres"
    case QuantidadeNaoPositiva => "Quantidade deve ser positiva"
    case EstoqueInsuficiente(n) => MensagemEstoqueInsuficiente + Decimal(n)
  }

  const MensagemEstoqueInsuficiente: string := "Estoque insuficiente. Disponível: "

  /** The message identifies the error: two errors with the same text are the same
      error, the reported stock included. */
  lemma MensagemIdentificaErro(a: ErroDominio, b: ErroDominio)
    requires Mensagem(a) == Mensagem(b)
    ensures a == b
  {
    if a.EstoqueInsuficiente? && b.EstoqueInsuficiente? {
      assert Mensagem(a)[|MensagemEstoqueInsuficiente|..] == Decimal(a.disponivel);
      assert Mensagem(b)[|MensagemEstoqueInsuficiente|..] == Decimal(b.disponivel);
      DecimalInjetivo(a.disponivel, b.disponivel);
    } else if a.EstoqueInsuficiente? {
      EstoqueInsuficienteDistinta(a.disponivel, b);
    } else if b.EstoqueInsuficiente? {
      EstoqueInsuficienteDistinta(b.disponivel, a);
    }
  }

  /** The insufficient-stock text differs from every fixed message. */
  lemma EstoqueInsuficienteDistinta(n: Int32, e: ErroDominio)
    requires !e.EstoqueInsuficiente?
    ensures Mensagem(EstoqueInsuficiente(n)) != Mensagem(e)
  {
    var m := Mensagem(EstoqueInsuficiente(n));
    assert m[0] == 'E' && m[8] == 'i';
  }

  /** The insufficient-stock message reports the stock it found: it can be read back from the text. */
  lemma EstoqueInsuficienteInformaDisponivel(n: Int32)
    ensures Mensagem(EstoqueInsuficiente(n))[..|MensagemEstoqueInsuficiente|] == MensagemEstoqueInsuficiente
    ensures LerDecimal(Mensagem(EstoqueInsuficiente(n))[|MensagemEstoqueInsuficiente|..]) == n
  {
    assert Mensagem(EstoqueInsuficiente(n))[|MensagemEstoqueInsuficiente|..] == Decimal(n);
    LerDecimalIdaEVolta(n);
  }

  /** `reduzirEstoque` on values: the stock after removing `quantidade`, or the error. */
  function Reducao(estoque: Int32, quantidade: Int32): (r: Result<Int32, ErroDominio>)
    ensures r.Failure? <==> quantidade <= 0 || estoque < quantidade
    ensures quantidade <= 0 ==> r == Failure(QuantidadeNaoPositiva)
    ensures 0 < quantidade && estoque < quantidade ==> r == Failure(EstoqueInsuficiente(estoque))
    ensures r.Success? ==> r.value + quantidade == estoque && 0 <= r.value < estoque
  {
    if quantidade <= 0 then Failure(QuantidadeNaoPositiva)
    else if estoque < quantidade then Failure(EstoqueInsuficiente(estoque))
    else Success(estoque - quantidade)
  }

  /** `aumentarEstoque` on values: Java `int` addition, which wraps past 2147483647. */
  function Aumento(estoque: Int32, quantidade: Int32): (r: Result<Int32, ErroDominio>)
    ensures r.Failure? <==> quantidade <= 0
    ensures r.Failure? ==> r.error == QuantidadeNaoPositiva
    ensures r.Success? && estoque + quantidade <= MaxInt32 ==> r.value == estoque + quantidade
    ensures r.Success? && estoque + quantidade > MaxInt32 ==> r.value < 0
  {
    if quantidade <= 0 then Failure(QuantidadeNaoPositiva)
    else Success(SomaInt32(estoque, quantidade))
  }

  /** Reducing by q and then increasing by q gives back the original stock. */
  lemma ReduzirDepoisAumentar(estoque: Int32, quantidade: Int32)
    requires Reducao(estoque, quantidade).Success?
    ensures Aumento(Reducao(estoque, quantidade).value, quantidade) == Success(estoque)
  {
  }

  /** Increasing a non-negative stock keeps it non-negative as long as the sum fits an `int`. */
  lemma AumentoPreservaNaoNegativo(estoque: Int32, quantidade: Int32)
    requires estoque >= 0 && estoque + quantidade <= MaxInt32
    requires Aumento(estoque, quantidade).Success?
    ensures Aumento(estoque, quantidade).value > estoque
  {
  }

  /** Unchecked `+=`: the largest stock increased by one wraps to the smallest `int`. */
  lemma AumentoTransborda()
    ensures Aumento(MaxInt32, 1) == Success(MinInt32)
  {
  }

  /** The new fields `atualizar` writes, or the rule that stops it. */
  function Atualizado(d: ProdutoDados, nome: Option<string>, descricao: Option<string>, preco: Option<real>,
                      estoque: Option<Int32>, categoria: Option<string>): (r: Result<ProdutoDados, ErroDominio>)
    ensures r.Failure? <==> Validar(nome, preco, estoque, categoria).Some?
    ensures r.Failure? ==> r.error == Invalido(Validar(nome, preco, estoque, categoria).value)
    ensures r.Success? ==> CamposValidos(r.value.Validados())
    ensures r.Success? ==> r.value.id == d.id && r.value.dataCriacao == d.dataCriacao
    ensures r.Success? ==> r.value.Validados() == Campos(nome, preco, estoque, categoria) && r.value.descricao == descricao
  {
    match Validar(nome, preco, estoque, categoria)
    case Some(regra) => Failure(Invalido(regra))
    case None => Success(d.(nome := nome, descricao := descricao, preco := preco,
                            estoque := estoque, categoria := categoria))
  }

  /** Validation uses the raw length: a four-character name with two spaces around it passes. */
  lemma ComprimentoNaoAparaEspacos()
    ensures Validar(Some(" ab "), Some(1.0), Some(0), Some("x")) == None
  {
  }

  /** A whitespace-only name counts as missing, even when it is long enough. */
  lemma NomeSoDeEspacos()
    ensures Validar(Some("   "), Some(1.0), Some(0), Some("x")) == Some(NomeObrigatorio)
  {
  }

  /** No-break spaces are not whitespace to `isBlank`, so a name made of three of them is present. */
  lemma NomeDeEspacosSemQuebra()
    ensures ValidarCamposObrigatorios(Some("\U{A0}\U{A0}\U{A0}"), Some(1.0), Some(0), Some("x")) == None
  {
  }

  /** The catalog item. Its fields are the source's getters; they change only
      through `Atualizar`, `ReduzirEstoque` and `AumentarEstoque`. */
  class Produto {
    var id: Option<int>
    var nome: Option<string>
    var descricao: Option<string>
    var preco: Option<real>
    var estoque: Option<Int32>
    var categoria: Option<string>
    var dataCriacao: Option<Instante>

    function Dados(): ProdutoDados
      reads this
    {
      ProdutoDados(id, nome, descricao, preco, estoque, categoria, dataCriacao)
    }

    /** The rehydration constructor: stores every value as given, without validation. */
    constructor Reconstituir(id: Option<int>, nome: Option<string>, descricao: Option<string>, preco: Option<real>,
                             estoque: Option<Int32>, categoria: Option<string>, dataCriacao: Option<Instante>)
      ensures Dados() == ProdutoDados(id, nome, descricao, preco, estoque, categoria, dataCriacao)
    {
      this.id := id;
      this.nome := nome;
      this.descricao := descricao;
      this.preco := preco;
      this.estoque := estoque;
      this.categoria := categoria;
      this.dataCriacao := dataCriacao;
    }

    /**
     * The creation constructor: both validation passes, then the fields, with no
     * id and `agora` (the clock's reading) as creation time.
     */
    static method Novo(nome: Option<string>, descricao: Option<string>, preco: Option<real>,
                       estoque: Option<Int32>, categoria: Option<string>, agora: Instante)
      returns (r: Result<Produto, ErroDominio>)
      ensures r.Failure? <==> Validar(nome, preco, estoque, categoria).Some?
      ensures r.Failure? ==> r.error == Invalido(Validar(nome, preco, estoque, categoria).value)
      ensures r.Success? ==> fresh(r.value)
      ensures r.Success? ==> r.value.Dados() == ProdutoDados(None, nome, descricao, preco, estoque, categoria, Some(agora))
      ensures r.Success? ==> CamposValidos(r.value.Dados().Validados())
    {
      var obrigatorios := ValidarCamposObrigatorios(nome, preco, estoque, categoria);
      if obrigatorios.Some? {
        return Failure(Invalido(obrigatorios.value));
      }
      var regras := ValidarRegrasDeNegocio(preco.value, estoque.value, nome.value);
      if regras.Some? {
        return Failure(Invalido(regras.value));
      }
      var p := new Produto.Reconstituir(None, nome, descricao, preco, estoque, categoria, Some(agora));
      return Success(p);
    }

    /** `atualizar`: validates everything, then replaces the five mutable fields;
        on failure nothing changes. */
    method Atualizar(nome: Option<string>, descricao: Option<string>, preco: Option<real>,
                     estoque: Option<Int32>, categoria: Option<string>) returns (r: Outcome<ErroDominio>)
      modifies this
      ensures match Atualizado(old(Dados()), nome, descricao, preco, estoque, categoria)
              case Success(novo) => r == Pass && Dados() == novo
              case Failure(e) => r == Fail(e) && Dados() == old(Dados())
      ensures id == old(id) && dataCriacao == old(dataCriacao)
    {
      var obrigatorios := ValidarCamposObrigatorios(nome, preco, estoque, categoria);
      if obrigatorios.Some? {
        return Fail(Invalido(obrigatorios.value));
      }
      var regras := ValidarRegrasDeNegocio(preco.value, estoque.value, nome.value);
      if regras.Some? {
        return Fail(Invalido(regras.value));
      }
      this.nome := nome;
      this.descricao := descricao;
      this.preco := preco;
      this.estoque := estoque;
      this.categoria := categoria;
      return Pass;
    }

    /** `reduzirEstoque`. A non-positive quantity is refused before the stock is
        read, so only a positive one needs a stock to be present. */
    method ReduzirEstoque(quantidade: Int32) returns (r: Outcome<ErroDominio>)
      requires quantidade > 0 ==> estoque.Some?
      modifies this`estoque
      ensures quantidade <= 0 ==> r == Fail(QuantidadeNaoPositiva) && estoque == old(estoque)
      ensures quantidade > 0 ==>
                match Reducao(old(estoque.value), quantidade)
                case Success(n) => r == Pass && estoque == Some(n)
                case Failure(e) => r == Fail(e) && estoque == old(estoque)
    {
      if quantidade <= 0 {
        return Fail(QuantidadeNaoPositiva);
      }
      if estoque.value < quantidade {
        return Fail(EstoqueInsuficiente(estoque.value));
      }
      estoque := Some(estoque.value - quantidade);
      return Pass;
    }

    /** `aumentarEstoque`. A non-positive quantity is refused before the stock is
        read, so only a positive one needs a stock to be present. */
    method AumentarEstoque(quantidade: Int32) returns (r: Outcome<ErroDominio>)
      requires quantidade > 0 ==> estoque.Some?
      modifies this`estoque
      ensures quantidade <= 0 ==> r == Fail(QuantidadeNaoPositiva) && estoque == old(estoque)
      ensures quantidade > 0 ==>
                match Aumento(old(estoque.value), quantidade)
                case Success(n) => r == Pass && estoque == Some(n)
                case Failure(e) => r == Fail(e) && estoque == old(estoque)
    {
      if quantidade <= 0 {
        return Fail(QuantidadeNaoPositiva);
      }
      estoque := Some(SomaInt32(estoque.value, quantidade));
      return Pass;
    }

    /** `temEstoqueDisponivel`: there is stock exactly when a single unit could be taken out. */
    predicate TemEstoqueDisponivel()
      requires estoque.Some?
      reads this
      ensures TemEstoqueDisponivel() <==> Reducao(estoque.value, 1).Success?
    {
      estoque.value > 0
    }
  }
}
