/**
 * The unit-test scenarios of the catalog, restated as verified clients of the
 * use-case and port contracts: each assertion below follows from those
 * contracts and the definitions of the rules.
 */
module Cenarios {
  import opened Base
  import opened JavaLang
  import opened ProdutoEntity
  import opened RepositoryPort
  import opened UseCase

  /** Creating "Notebook" stores it under the first id with the given stock and price;
      a two-letter name is refused with the length message and nothing is saved. */
  method CriarProduto()
  {
    var repo := new ProdutoRepositoryEmMemoria();
    var criar := new CriarProdutoUseCase(repo);
    assert !EspacoJava("Notebook"[0]) && !EspacoJava("Eletrônicos"[0]);
    var r := criar.Executar(Some("Notebook"), Some("Dell Inspiron"), Some(2999.99), Some(10), Some("Eletrônicos"), Instante(0));
    assert r.Success?;
    assert r.value.nome == Some("Notebook") && r.value.preco == Some(2999.99) && r.value.estoque == Some(10);
    assert r.value.id == Some(1) && 1 in repo.store;

    assert !EspacoJava("AB"[0]);
    var curto := criar.Executar(Some("AB"), Some("Descrição"), Some(2999.99), Some(10), Some("Eletrônicos"), Instante(0));
    assert curto == Failure(InvalidArgument(Invalido(NomeTamanhoInvalido)));
    assert MensagemDaFalha(curto.error) == "Nome deve ter entre 3 e 100 caracteres";
    assert repo.store.Keys == {1};
  }

  /** A saved item is found again under the id it was given, with the same fields;
      an id never saved is not found. */
  method SalvarEBuscar()
  {
    var repo := new ProdutoRepositoryEmMemoria();
    var novo := new Produto.Reconstituir(None, Some("Notebook"), Some("Dell Inspiron"), Some(2999.99), Some(10), Some("Eletrônicos"), None);
    var salvo := repo.Salvar(novo);
    var encontrado := repo.BuscarPorId(salvo.id.value);
    assert encontrado.Some?;
    assert encontrado.value.nome == Some("Notebook") && encontrado.value.preco == Some(2999.99);
    var ausente := repo.BuscarPorId(999);
    assert ausente == None;
  }

  /** Updating or deleting id 999 in an empty store raises `NotFound(999)`,
      with no save and no delete reaching the port. */
  method IdInexistente()
  {
    var repo := new ProdutoRepositoryEmMemoria();
    var atualizar := new AtualizarProdutoUseCase(repo);
    var r := atualizar.Executar(999, None, None, None, None, None);
    assert r == Failure(NotFound(999));
    assert repo.log == [Chamada.BuscarPorId(999)];

    var deletar := new DeletarProdutoUseCase(repo);
    var d := deletar.Executar(999);
    assert d == Fail(NotFound(999));
    assert repo.log == [Chamada.BuscarPorId(999), Chamada.Existe(999)];
  }

  /** With one electronics item and one clothing item stored, the electronics
      query returns exactly the one electronics item. */
  method BuscarPorCategoria()
  {
    var repo := new ProdutoRepositoryEmMemoria();
    var notebook := new Produto.Reconstituir(None, Some("Notebook"), Some("Dell"), Some(2999.99), Some(10), Some("Eletrônicos"), None);
    var camiseta := new Produto.Reconstituir(None, Some("Camiseta"), Some("Nike"), Some(99.99), Some(20), Some("Roupas"), None);
    var a := repo.Salvar(notebook);
    var b := repo.Salvar(camiseta);
    assert repo.store.Keys == {1, 2};
    var buscar := new BuscarPorCategoriaUseCase(repo);
    var r := buscar.Executar("Eletrônicos");
    assert (set k | k in repo.store && repo.store[k].categoria == Some("Eletrônicos")) == {1};
    assert |r| == 1;
    assert r[0].nome == Some("Notebook");
  }

  /** Stock 10: reducing by 3 leaves 7, reducing by 15 fails reporting 7 and
      changes nothing, and increasing by 3 gives back 10. With no stock recorded,
      a non-positive quantity is still refused with the quantity error. */
  method MovimentarEstoque()
  {
    var p := new Produto.Reconstituir(Some(1), Some("Notebook"), Some("Dell"), Some(2999.99), Some(10), Some("Eletrônicos"), None);
    var r := p.ReduzirEstoque(3);
    assert r == Pass && p.estoque == Some(7);
    r := p.ReduzirEstoque(15);
    assert r == Fail(EstoqueInsuficiente(7)) && p.estoque == Some(7);
    r := p.AumentarEstoque(3);
    assert r == Pass && p.estoque == Some(10);
    assert p.TemEstoqueDisponivel();

    var semEstoque := new Produto.Reconstituir(Some(2), Some("Mouse"), None, Some(50.0), None, Some("Eletrônicos"), None);
    r := semEstoque.ReduzirEstoque(0);
    assert r == Fail(QuantidadeNaoPositiva) && semEstoque.estoque == None;
    r := semEstoque.AumentarEstoque(-1);
    assert r == Fail(QuantidadeNaoPositiva);
  }
}
