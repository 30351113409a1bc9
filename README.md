# Product catalog core, modelled in Dafny

This project models the core of a small product-catalog microservice. The core has three layers:

- the `Produto` domain entity, with its validation rules and its stock arithmetic;
- the storage port (`ProdutoRepositoryPort`), the six-operation contract the use cases need from a store;
- the six use cases that run on top of them: create, fetch by id, list all, update, delete, fetch by category.

It proves that the entity accepts exactly the fields that satisfy the item invariant. When it rejects them, the error is the first broken rule in the source's check order. It also proves how the stock operations behave, including the round trip "reduce by q, then increase by q". For the use cases it proves which port calls happen, and in what order. For example, an update of a missing id reports `NotFound` whatever the payload, and touches nothing. A rejected payload is never saved. A delete is never issued for an id that does not exist.

Files and modules:

- `base.dfy` (`Base`): `Option` stands for Java `null`. `Result` and `Outcome` stand for a call that returns or throws.
- `java_lang.dfy` (`JavaLang`): Java `int` as `Int32`, with the wrap-around of `+`. Also `Character.isWhitespace` and `String.isBlank`, and the decimal text that string concatenation gives for a number, with a parser that reads it back.
- `produto.dfy` (`ProdutoEntity`): the rules (`Regra`), the errors (`ErroDominio`) and their exact messages. Then the two validation passes, the stock functions and the `Produto` class.
- `produto_not_found.dfy` (`ProdutoNotFound`): the message of the not-found exception.
- `repository_port.dfy` (`RepositoryPort`): the port, given by an in-memory store. The store is a `map<int, ProdutoDados>` plus the next id to hand out. A ghost log records every port call.
- `use_cases.dfy` (`UseCase`): the failure signals `NotFound(id)` and `InvalidArgument(erro)`, and one class per use case.
- `cenarios.dfy` (`Cenarios`): the scenarios of the source's unit tests, written as clients whose assertions follow from the contracts and the rule definitions.

Modelling choices:

- Every Java reference or boxed value that may be `null` is an `Option`: the `String` fields, `BigDecimal preco`, `Integer estoque`, `Long id` and `LocalDateTime dataCriacao`.
- `preco` is an exact `real`, since only its sign is ever compared. `estoque` and quantities are Java `int` values (`Int32`).
- The store keeps value snapshots (`ProdutoDados`). Each read returns fresh `Produto` objects, because the persistence adapter maps rows back to new entities. So `Salvar` does not change its argument, and the saved copy is a different object.
- The clock reading that the creation constructor takes from `LocalDateTime.now()` is a parameter, `agora`.
- A Dafny constructor cannot fail. So the validating creation constructor is the static method `Produto.Novo`, which returns a `Result`. The rehydration constructor is the constructor `Produto.Reconstituir`.
- Java getters are the class's fields, read directly.

Two behaviours of the code worth knowing:

- The name-length rule counts the raw `nome.length()` (`Produto.java:71`), not the trimmed name, so `" ab "` passes (lemma `ComprimentoNaoAparaEspacos`).
- `aumentarEstoque` uses an unchecked Java `int +=` (`Produto.java:103`), so a stock of 2147483647 raised by 1 becomes -2147483648 (lemma `AumentoTransborda`). Non-negativity of the stock is proved only while the sum fits an `int` (lemma `AumentoPreservaNaoNegativo`).

## Model

| member | source | states |
|---|---|---|
| `JavaLang.SomaInt32` | src/main/java/com/ecommerce/produtos/domain/entity/Produto.java:103 | Java `int` addition: the result is congruent to a + b modulo 2^32; it is a + b whenever that fits, negative after a positive overflow and non-negative after a negative one |
| `JavaLang.DecimalNat` | src/main/java/com/ecommerce/produtos/domain/exception/ProdutoNotFoundException.java:5 | the decimal text of a natural number is non-empty, all digits, and has no leading zero |
| `JavaLang.Decimal` | src/main/java/com/ecommerce/produtos/domain/exception/ProdutoNotFoundException.java:5 | the text concatenation gives for a number is non-empty and starts with '-' exactly when the number is negative |
| `JavaLang.LerDecimalNat` | src/main/java/com/ecommerce/produtos/domain/exception/ProdutoNotFoundException.java:5 | reading back the digits of a natural number gives that number |
| `JavaLang.LerDecimalIdaEVolta` | src/main/java/com/ecommerce/produtos/domain/exception/ProdutoNotFoundException.java:5 | reading back the decimal text of any integer gives that integer |
| `JavaLang.DecimalInjetivo` | src/main/java/com/ecommerce/produtos/domain/exception/ProdutoNotFoundException.java:5 | two integers with the same decimal text are equal |
| `JavaLang.EspacoJava` | src/main/java/com/ecommerce/produtos/domain/entity/Produto.java:50 | definition, no contract: the code points `Character.isWhitespace` accepts, through which `isBlank` decides a blank nome or categoria |
| `JavaLang.EspacosSemQuebra` | src/main/java/com/ecommerce/produtos/domain/entity/Produto.java:50 | the ASCII blanks are whitespace and the three no-break spaces are not |
| `JavaLang.PrimeiroNaoEspaco` | src/main/java/com/ecommerce/produtos/domain/entity/Produto.java:50 | the scan behind `isBlank` stops at the first non-whitespace code point: everything before it is whitespace, and it is the end when there is none |
| `JavaLang.EmBranco` | src/main/java/com/ecommerce/produtos/domain/entity/Produto.java:59 | `isBlank` holds exactly when every code point is whitespace (the empty string included) |
| `ProdutoEntity.Posicao` | src/main/java/com/ecommerce/produtos/domain/entity/Produto.java:48-74 | every rule has a place in the check order, and the order lists it there |
| `ProdutoEntity.ValidarCamposObrigatorios` | src/main/java/com/ecommerce/produtos/domain/entity/Produto.java:48-62 | the presence pass accepts exactly when nome and categoria are non-null and not blank and preco and estoque are non-null; a rejection names one of the first four rules |
| `ProdutoEntity.ValidarRegrasDeNegocio` | src/main/java/com/ecommerce/produtos/domain/entity/Produto.java:64-74 | the value pass accepts exactly when preco > 0, estoque >= 0 and the raw name length is in [3, 100]; a rejection names one of the last three rules |
| `ProdutoEntity.Validar` | src/main/java/com/ecommerce/produtos/domain/entity/Produto.java:23-24 | both passes accept exactly the fields that satisfy the item invariant, that is, that break no rule; a rejection names a rule the fields break, and every rule earlier in the order holds |
| `ProdutoEntity.Mensagem` | src/main/java/com/ecommerce/produtos/domain/entity/Produto.java:51-101 | definition, no contract: the text of each of the entity's nine exceptions |
| `ProdutoEntity.MensagemIdentificaErro` | src/main/java/com/ecommerce/produtos/domain/entity/Produto.java:51-101 | two errors with the same message are the same error, the reported stock included |
| `ProdutoEntity.EstoqueInsuficienteDistinta` | src/main/java/com/ecommerce/produtos/domain/entity/Produto.java:92-94 | the insufficient-stock text differs from each of the fixed messages |
| `ProdutoEntity.EstoqueInsuficienteInformaDisponivel` | src/main/java/com/ecommerce/produtos/domain/entity/Produto.java:92-94 | the insufficient-stock message starts with the fixed text, and the stock found can be read back from the rest |
| `ProdutoEntity.Reducao` | src/main/java/com/ecommerce/produtos/domain/entity/Produto.java:88-97 | a reduction fails exactly when q <= 0 (quantity error, checked first) or q exceeds the stock (insufficient stock, reporting the stock); otherwise the new stock plus q is the old stock, and it is non-negative and smaller than before |
| `ProdutoEntity.Aumento` | src/main/java/com/ecommerce/produtos/domain/entity/Produto.java:99-104 | an increase fails exactly when q <= 0; otherwise it adds q when the sum fits an `int` and wraps to a negative stock when it does not |
| `ProdutoEntity.ReduzirDepoisAumentar` | src/main/java/com/ecommerce/produtos/domain/entity/Produto.java:88-104 | a successful reduction by q followed by an increase by q gives back the original stock |
| `ProdutoEntity.AumentoPreservaNaoNegativo` | src/main/java/com/ecommerce/produtos/domain/entity/Produto.java:99-104 | a successful increase of a non-negative stock whose sum fits an `int` gives a larger stock |
| `ProdutoEntity.AumentoTransborda` | src/main/java/com/ecommerce/produtos/domain/entity/Produto.java:103 | a stock of 2147483647 increased by 1 becomes -2147483648 |
| `ProdutoEntity.Atualizado` | src/main/java/com/ecommerce/produtos/domain/entity/Produto.java:76-86 | an update fails exactly when validation rejects the new fields, with that rule; on success the five mutable fields are the new ones, they satisfy the item invariant, and id and dataCriacao are kept |
| `ProdutoEntity.ComprimentoNaoAparaEspacos` | src/main/java/com/ecommerce/produtos/domain/entity/Produto.java:71 | the length rule counts the untrimmed name, so " ab " is accepted |
| `ProdutoEntity.NomeSoDeEspacos` | src/main/java/com/ecommerce/produtos/domain/entity/Produto.java:50 | a name of three spaces counts as missing, so the first rule rejects it |
| `ProdutoEntity.NomeDeEspacosSemQuebra` | src/main/java/com/ecommerce/produtos/domain/entity/Produto.java:50 | a name of three no-break spaces is not blank, so the presence pass accepts it |
| `ProdutoEntity.Produto.Reconstituir` | src/main/java/com/ecommerce/produtos/domain/entity/Produto.java:35-44 | rehydration stores every value, id and dataCriacao included, exactly as given, with no validation |
| `ProdutoEntity.Produto.Novo` | src/main/java/com/ecommerce/produtos/domain/entity/Produto.java:21-32 | creation fails exactly when validation rejects, with the first broken rule; on success it gives a fresh entity whose fields are the inputs, with no id, the clock reading as dataCriacao, and the item invariant holding |
| `ProdutoEntity.Produto.Atualizar` | src/main/java/com/ecommerce/produtos/domain/entity/Produto.java:76-86 | either fails, leaving every field unchanged, or replaces nome, descricao, preco, estoque and categoria as `Atualizado` says; id and dataCriacao never change |
| `ProdutoEntity.Produto.ReduzirEstoque` | src/main/java/com/ecommerce/produtos/domain/entity/Produto.java:88-97 | a non-positive quantity gives the quantity error, even when the stock is null; otherwise the outcome and the new stock are those of `Reducao`; the stock is unchanged on failure, and no other field changes |
| `ProdutoEntity.Produto.AumentarEstoque` | src/main/java/com/ecommerce/produtos/domain/entity/Produto.java:99-104 | a non-positive quantity gives the quantity error, even when the stock is null; otherwise the outcome and the new stock are those of `Aumento`; the stock is unchanged on failure, and no other field changes |
| `ProdutoEntity.Produto.TemEstoqueDisponivel` | src/main/java/com/ecommerce/produtos/domain/entity/Produto.java:106-108 | the item has stock available exactly when a reduction by one unit would succeed |
| `ProdutoNotFound.Mensagem` | src/main/java/com/ecommerce/produtos/domain/exception/ProdutoNotFoundException.java:4-5 | the not-found message starts with "Produto não encontrado com id: " |
| `ProdutoNotFound.MensagemInformaId` | src/test/java/com/ecommerce/produtos/application/usecase/BuscarProdutoPorIdUseCaseTest.java:66-68 | the message ends with the id's decimal text, and the id can be read back from it |
| `ProdutoNotFound.MensagemInjetiva` | src/main/java/com/ecommerce/produtos/domain/exception/ProdutoNotFoundException.java:4-5 | two different ids never produce the same message |
| `RepositoryPort.Persistido` | src/main/java/com/ecommerce/produtos/domain/repository/ProdutoRepositoryPort.java:12 | what is saved always carries an id: the item's own id if it had one, otherwise the next id (the second half is its definition) |
| `RepositoryPort.ProdutoRepositoryEmMemoria.Salvar` | src/main/java/com/ecommerce/produtos/domain/repository/ProdutoRepositoryPort.java:12 | saving stores the item under its id (a new item gets an id not in use) and returns a fresh copy of exactly what was stored; the argument is unchanged, no other entry changes, and one save is logged |
| `RepositoryPort.ProdutoRepositoryEmMemoria.BuscarPorId` | src/main/java/com/ecommerce/produtos/domain/repository/ProdutoRepositoryPort.java:13 | finds a fresh copy of the stored item exactly when the id is stored, and finds nothing (not an error) otherwise; the store is unchanged |
| `RepositoryPort.ProdutoRepositoryEmMemoria.BuscarTodos` | src/main/java/com/ecommerce/produtos/domain/repository/ProdutoRepositoryPort.java:14 | returns one fresh copy of each stored item and nothing else, in an unspecified order; the store is unchanged |
| `RepositoryPort.ProdutoRepositoryEmMemoria.BuscarPorCategoria` | src/main/java/com/ecommerce/produtos/domain/repository/ProdutoRepositoryPort.java:15 | returns one fresh copy of each stored item whose categoria equals the argument, and no other item; the store is unchanged |
| `RepositoryPort.ProdutoRepositoryEmMemoria.Deletar` | src/main/java/com/ecommerce/produtos/domain/repository/ProdutoRepositoryPort.java:16 | after a delete the id no longer resolves, and every other entry is untouched |
| `RepositoryPort.ProdutoRepositoryEmMemoria.Existe` | src/main/java/com/ecommerce/produtos/domain/repository/ProdutoRepositoryPort.java:17 | true exactly when the id is stored, that is, exactly when `BuscarPorId` would find it |
| `UseCase.MensagemDaFalha` | src/main/java/com/ecommerce/produtos/domain/exception/ProdutoNotFoundException.java:4-5 | definition, no contract: a missing id carries the not-found message and a rejected payload the entity's message |
| `UseCase.MensagemDaFalhaIdentifica` | src/main/java/com/ecommerce/produtos/domain/exception/ProdutoNotFoundException.java:4-5 | two failures with the same message are the same failure: the same missing id or the same broken rule |
| `UseCase.CriarProdutoUseCase.Executar` | src/main/java/com/ecommerce/produtos/application/usecase/CriarProdutoUseCase.java:18-25 | fails exactly when the creation constructor does, with its error, and then logs no port call and leaves the store unchanged; otherwise it makes exactly one save, of an item with no id, and returns that item under a new id with the given fields |
| `UseCase.BuscarProdutoPorIdUseCase.Executar` | src/main/java/com/ecommerce/produtos/application/usecase/BuscarProdutoPorIdUseCase.java:15-18 | makes exactly one lookup; returns the stored item with the same id, or `NotFound(id)`; the store is unchanged |
| `UseCase.ListarTodosProdutosUseCase.Executar` | src/main/java/com/ecommerce/produtos/application/usecase/ListarTodosProdutosUseCase.java:15-17 | makes exactly one `buscarTodos` call and returns exactly its result, in its order: every stored item once, and an empty list for an empty store; never fails, and the store is unchanged |
| `UseCase.AtualizarProdutoUseCase.Executar` | src/main/java/com/ecommerce/produtos/application/usecase/AtualizarProdutoUseCase.java:16-24 | an absent id gives `NotFound(id)` whatever the payload, after only the lookup; a rejected payload gives the entity's error, with no save and the store unchanged; otherwise one lookup, then one save of the updated item, which keeps its id and dataCriacao |
| `UseCase.DeletarProdutoUseCase.Executar` | src/main/java/com/ecommerce/produtos/application/usecase/DeletarProdutoUseCase.java:14-19 | an absent id gives `NotFound(id)` after only the existence check, with no delete and the store unchanged; otherwise an existence check, then a delete that removes exactly that id |
| `UseCase.BuscarPorCategoriaUseCase.Executar` | src/main/java/com/ecommerce/produtos/application/usecase/BuscarPorCategoriaUseCase.java:15-17 | makes exactly one `buscarPorCategoria` call and returns exactly its result; every item has the given category, and no item of another category is included; any string is accepted without error, and the store is unchanged |

## Left out

- The storage port as an interface with several implementations: the port is given by its one in-memory implementation, which stands in for the mock the tests use. Its contract is stated on that class's methods, and the use cases rely only on those contracts.
- The JPA adapter (`ProdutoRepositoryImpl`, `ProdutoJpaEntity`, `ProdutoJpaRepository`, `ProdutoMapper`) is not part of this model. Two of its effects are therefore missing: the database column limits (nome 100, categoria 50, descricao 500 characters, price precision 10,2), and the rule that an update never rewrites `data_criacao`.
- How Spring Data saves an item whose id is set but not stored is left to that framework. The in-memory store inserts it under that id.
- `RepositoryPort.ProdutoRepositoryEmMemoria.Deletar`: a delete of a missing id does nothing. The port leaves that case open, and the use case never issues such a delete.
- The HTTP layer, the request and response records, the exception-to-status mapping, the dependency wiring (`BeanConfiguration`) and the older flattened controller/service/model stack are framework plumbing outside the core.
- `@Transactional` behaviour and concurrency belong to the framework and the database.
- `LocalDateTime.now()` is nondeterministic, so it is a parameter.
- `ProdutoEntity.Produto.ReduzirEstoque`, `ProdutoEntity.Produto.AumentarEstoque`: require a non-null stock only for a positive quantity. On a rehydrated entity whose stock is null, a positive quantity makes the source throw `NullPointerException`, an unchecked crash that is not one of the core's failure signals. A non-positive quantity is refused with the quantity error before the stock is read, and the model covers that case.
- `ProdutoEntity.Produto.TemEstoqueDisponivel`: requires a non-null stock, because `this.estoque > 0` always unboxes it and throws `NullPointerException` when it is null.
- A null `quantidade` (which throws `NullPointerException` when unboxed), a null id passed to a use case, and a null category passed to the category query are not modelled.
- Ids are unbounded integers handed out by a counter, not 64-bit `long` values.
- `String.length()` counts UTF-16 code units; the model counts Unicode scalar values, so a name with characters outside the Basic Multilingual Plane is measured differently.
- `BigDecimal` scale and rounding: prices are exact reals, and only their sign is ever compared.
- Getters are not separate members: the model reads the fields directly.
