/**
 * The six use cases: short orchestrations over the storage port. A missing id
 * becomes `NotFound(id)`; a rule the entity rejects becomes `InvalidArgument`.
 * Each contract also says which port calls were made, in order, so that
 * "save is never called" reads as "no `Salvar` entry was logged".
 */
module UseCase {
  import opened Base
  import opened JavaLang
  import opened ProdutoEntity
  import opened RepositoryPort
  import ProdutoNotFound

  /** The two failure signals a use case can raise. */
  datatype Falha = NotFound(id: int) | InvalidArgument(erro: ErroDominio)

  /** The text of the exception behind each failure. */
  function MensagemDaFalha(f: Falha): string
  {
    match f
    case NotFound(id) => ProdutoNotFound.Mensagem(id)
    case InvalidArgument(e) => Mensagem(e)
  }

  /** The failure can be told from its message: equal texts mean the same failure,
      the same missing id or the same broken rule. */
  lemma MensagemDaFalhaIdentifica(f: Falha, g: Falha)
    requires MensagemDaFalha(f) == MensagemDaFalha(g)
    ensures f == g
  {
    if f.NotFound? && g.NotFound? {
      ProdutoNotFound.MensagemInjetiva(f.id, g.id);
    } else if f.InvalidArgument? && g.InvalidArgument? {
      MensagemIdentificaErro(f.erro, g.erro);
    }
  }

  /** Create: build the entity (which validates), then save it. */
  class CriarProdutoUseCase {
    const repositoryPort: ProdutoRepositoryEmMemoria

    constructor (repositoryPort: ProdutoRepositoryEmMemoria)
      ensures this.repositoryPort == repositoryPort
    {
      this.repositoryPort := repositoryPort;
    }

    method Executar(nome: Option<string>, descricao: Option<string>, preco: Option<real>,
                    estoque: Option<Int32>, categoria: Option<string>, agora: Instante)
      returns (r: Result<Produto, Falha>)
      requires repositoryPort.Valid()
      modifies repositoryPort
      ensures repositoryPort.Valid()
      ensures var novo := ProdutoDados(None, nome, descricao, preco, estoque, categoria, Some(agora));
              match Validar(nome, preco, estoque, categoria)
              case Some(regra) =>
                && r == Failure(InvalidArgument(Invalido(regra)))
                && repositoryPort.store == old(repositoryPort.store)
                && repositoryPort.nextId == old(repositoryPort.nextId)
                && repositoryPort.log == old(repositoryPort.log)
              case None =>
                && r.Success? && fresh(r.value)
                && r.value.Dados() == novo.(id := Some(old(repositoryPort.nextId)))
                && old(repositoryPort.nextId) !in old(repositoryPort.store)
                && repositoryPort.store == old(repositoryPort.store)[old(repositoryPort.nextId) := r.value.Dados()]
                && repositoryPort.log == old(repositoryPort.log) + [Chamada.Salvar(novo)]
    {
      var produto := Produto.Novo(nome, descricao, preco, estoque, categoria, agora);
      if produto.Failure? {
        return Failure(InvalidArgument(produto.error));
      }
      var salvo := repositoryPort.Salvar(produto.value);
      return Success(salvo);
    }
  }

  /** Fetch by id: one lookup; absence becomes `NotFound(id)`. */
  class BuscarProdutoPorIdUseCase {
    const repositoryPort: ProdutoRepositoryEmMemoria

    constructor (repositoryPort: ProdutoRepositoryEmMemoria)
      ensures this.repositoryPort == repositoryPort
    {
      this.repositoryPort := repositoryPort;
    }

    method Executar(id: int) returns (r: Result<Produto, Falha>)
      requires repositoryPort.Valid()
      modifies repositoryPort`log
      ensures repositoryPort.store == old(repositoryPort.store)
      ensures id in repositoryPort.store ==> r.Success? && fresh(r.value) && r.value.Dados() == repositoryPort.store[id]
      ensures id in repositoryPort.store ==> r.value.id == Some(id)
      ensures id !in repositoryPort.store ==> r == Failure(NotFound(id))
      ensures repositoryPort.log == old(repositoryPort.log) + [Chamada.BuscarPorId(id)]
    {
      var encontrado := repositoryPort.BuscarPorId(id);
      if encontrado.None? {
        return Failure(NotFound(id));
      }
      return Success(encontrado.value);
    }
  }

  /** List all: exactly what the port's `buscarTodos` returns. */
  class ListarTodosProdutosUseCase {
    const repositoryPort: ProdutoRepositoryEmMemoria

    constructor (repositoryPort: ProdutoRepositoryEmMemoria)
      ensures this.repositoryPort == repositoryPort
    {
      this.repositoryPort := repositoryPort;
    }

    method Executar() returns (r: seq<Produto>)
      requires repositoryPort.Valid()
      modifies repositoryPort`log
      ensures repositoryPort.store == old(repositoryPort.store)
      ensures repositoryPort.log == old(repositoryPort.log) + [Chamada.BuscarTodos(r)]
      ensures forall i | 0 <= i < |r| :: fresh(r[i])
      ensures CopiasExatas(r, repositoryPort.store, repositoryPort.store.Keys)
      ensures repositoryPort.store == map[] ==> r == []
    {
      r := repositoryPort.BuscarTodos();
    }
  }

  /**
   * Update: look the item up (`NotFound` if absent), apply `atualizar` to the
   * loaded entity (which validates), then save it. The lookup comes first, so an
   * absent id reports `NotFound` whatever the payload; validation comes before
   * the save, so a rejected payload saves nothing.
   */
  class AtualizarProdutoUseCase {
    const repositoryPort: ProdutoRepositoryEmMemoria

    constructor (repositoryPort: ProdutoRepositoryEmMemoria)
      ensures this.repositoryPort == repositoryPort
    {
      this.repositoryPort := repositoryPort;
    }

    method Executar(id: int, nome: Option<string>, descricao: Option<string>, preco: Option<real>,
                    estoque: Option<Int32>, categoria: Option<string>)
      returns (r: Result<Produto, Falha>)
      requires repositoryPort.Valid()
      modifies repositoryPort
      ensures repositoryPort.Valid()
      ensures repositoryPort.nextId == old(repositoryPort.nextId)
      ensures id !in old(repositoryPort.store) ==>
                && r == Failure(NotFound(id))
                && repositoryPort.store == old(repositoryPort.store)
                && repositoryPort.log == old(repositoryPort.log) + [Chamada.BuscarPorId(id)]
      ensures id in old(repositoryPort.store) ==>
                match Atualizado(old(repositoryPort.store)[id], nome, descricao, preco, estoque, categoria)
                case Failure(e) =>
                  && r == Failure(InvalidArgument(e))
                  && repositoryPort.store == old(repositoryPort.store)
                  && repositoryPort.log == old(repositoryPort.log) + [Chamada.BuscarPorId(id)]
                case Success(novo) =>
                  && r.Success? && fresh(r.value) && r.value.Dados() == novo
                  && repositoryPort.store == old(repositoryPort.store)[id := novo]
                  && repositoryPort.log == old(repositoryPort.log) + [Chamada.BuscarPorId(id), Chamada.Salvar(novo)]
      ensures r.Success? ==> r.value.id == Some(id) && r.value.dataCriacao == old(repositoryPort.store)[id].dataCriacao
    {
      var encontrado := repositoryPort.BuscarPorId(id);
      if encontrado.None? {
        return Failure(NotFound(id));
      }
      var produto := encontrado.value;
      var atualizacao := produto.Atualizar(nome, descricao, preco, estoque, categoria);
      if atualizacao.Fail? {
        return Failure(InvalidArgument(atualizacao.error));
      }
      var salvo := repositoryPort.Salvar(produto);
      return Success(salvo);
    }
  }

  /** Delete: check existence (`NotFound` if absent), and only then delete. */
  class DeletarProdutoUseCase {
    const repositoryPort: ProdutoRepositoryEmMemoria

    constructor (repositoryPort: ProdutoRepositoryEmMemoria)
      ensures this.repositoryPort == repositoryPort
    {
      this.repositoryPort := repositoryPort;
    }

    method Executar(id: int) returns (r: Outcome<Falha>)
      requires repositoryPort.Valid()
      modifies repositoryPort
      ensures repositoryPort.Valid()
      ensures repositoryPort.nextId == old(repositoryPort.nextId)
      ensures id !in old(repositoryPort.store) ==>
                && r == Fail(NotFound(id))
                && repositoryPort.store == old(repositoryPort.store)
                && repositoryPort.log == old(repositoryPort.log) + [Chamada.Existe(id)]
      ensures id in old(repositoryPort.store) ==>
                && r == Pass
                && repositoryPort.store == old(repositoryPort.store) - {id}
                && repositoryPort.log == old(repositoryPort.log) + [Chamada.Existe(id), Chamada.Deletar(id)]
    {
      var existe := repositoryPort.Existe(id);
      if !existe {
        return Fail(NotFound(id));
      }
      repositoryPort.Deletar(id);
      return Pass;
    }
  }

  /** Fetch by category: exactly what the port's `buscarPorCategoria` returns; any string is accepted. */
  class BuscarPorCategoriaUseCase {
    const repositoryPort: ProdutoRepositoryEmMemoria

    constructor (repositoryPort: ProdutoRepositoryEmMemoria)
      ensures this.repositoryPort == repositoryPort
    {
      this.repositoryPort := repositoryPort;
    }

    method Executar(categoria: string) returns (r: seq<Produto>)
      requires repositoryPort.Valid()
      modifies repositoryPort`log
      ensures repositoryPort.store == old(repositoryPort.store)
      ensures repositoryPort.log == old(repositoryPort.log) + [Chamada.BuscarPorCategoria(categoria, r)]
      ensures forall i | 0 <= i < |r| :: fresh(r[i])
      ensures CopiasExatas(r, repositoryPort.store,
                           set k | k in repositoryPort.store && repositoryPort.store[k].categoria == Some(categoria))
      ensures forall i | 0 <= i < |r| :: r[i].categoria == Some(categoria)
    {
      r := repositoryPort.BuscarPorCategoria(categoria);
    }
  }
}
