/**
 * The storage port: the six operations the use cases need from a store, given
 * by an in-memory implementation keyed by id. The store holds copies of the
 * items; every read hands back fresh `Produto` objects, as the persistence
 * adapter does when it maps rows back to entities.
 */
module RepositoryPort {
  import opened Base
  import opened ProdutoEntity

  /** One call made on the port, for stating which calls a use case makes and in what order. */
  datatype Chamada =
    | Salvar(dados: ProdutoDados)
    | BuscarPorId(id: int)
    | BuscarTodos(retorno: seq<Produto>)
    | BuscarPorCategoria(categoria: string, retorno: seq<Produto>)
    | Deletar(id: int)
    | Existe(id: int)

  /** What `Salvar` stores for `d`: `d` itself, with a newly assigned id when it had none. */
  function Persistido(d: ProdutoDados, nextId: int): (r: ProdutoDados)
    ensures r.id.Some?
  {
    if d.id.None? then d.(id := Some(nextId)) else d
  }

  /** `rs` holds one fresh copy of `m[k]` for each key k in `ks`, and nothing else. */
  ghost predicate CopiasExatas(rs: seq<Produto>, m: map<int, ProdutoDados>, ks: set<int>)
    reads rs
  {
    && |rs| == |ks|
    && (forall i | 0 <= i < |rs| :: rs[i].id.Some? && rs[i].id.value in ks && rs[i].id.value in m
                                     && rs[i].Dados() == m[rs[i].id.value])
    && (forall k | k in ks :: exists i | 0 <= i < |rs| :: rs[i].id == Some(k))
    && (forall i, j | 0 <= i < j < |rs| :: rs[i].id != rs[j].id)
  }

  /** A verifier aid, not a property of the store: a non-empty set has an element,
      stated so that `Enumerar` can pick one with `:|`. */
  lemma TemElemento(ks: set<int>)
    requires ks != {}
    ensures exists k :: k in ks
  {
    if !(exists k :: k in ks) {
      assert false;
    }
  }

  /** The elements of `ks`, each once, in an arbitrary order. */
  method Enumerar(ks: set<int>) returns (s: seq<int>)
    ensures |s| == |ks|
    ensures forall k :: k in s <==> k in ks
    ensures forall i, j | 0 <= i < j < |s| :: s[i] != s[j]
  {
    s := [];
    var pendentes := ks;
    while pendentes != {}
      invariant pendentes !! (set k | k in s) && pendentes + (set k | k in s) == ks
      invariant |s| + |pendentes| == |ks|
      invariant forall i, j | 0 <= i < j < |s| :: s[i] != s[j]
      decreases pendentes
    {
      TemElemento(pendentes);
      var k :| k in pendentes;
      s := s + [k];
      pendentes := pendentes - {k};
    }
  }

  class ProdutoRepositoryEmMemoria {
    /** The stored items by id. */
    var store: map<int, ProdutoDados>
    /** The id the next new item receives. */
    var nextId: int
    /** Every port call made so far, oldest first. */
    ghost var log: seq<Chamada>

    /** Each item is stored under its own id, and every id in use is below `nextId`. */
    ghost predicate Valid()
      reads this
    {
      forall k | k in store :: store[k].id == Some(k) && k < nextId
    }

    constructor ()
      ensures Valid() && store == map[] && nextId == 1 && log == []
    {
      store := map[];
      nextId := 1;
      log := [];
    }

    /** `salvar`: inserts a new item under a fresh id, or replaces the item with the
        given id; returns a copy of what was stored. The argument is not changed. */
    method Salvar(produto: Produto) returns (salvo: Produto)
      requires Valid()
      modifies this
      ensures Valid()
      ensures fresh(salvo)
      ensures salvo.Dados() == Persistido(produto.Dados(), old(nextId))
      ensures store == old(store)[salvo.id.value := salvo.Dados()]
      ensures produto.id.None? ==> salvo.id.value !in old(store) && nextId == old(nextId) + 1
      ensures produto.id.Some? ==> nextId == if produto.id.value < old(nextId) then old(nextId) else produto.id.value + 1
      ensures log == old(log) + [Chamada.Salvar(produto.Dados())]
    {
      var d := Persistido(produto.Dados(), nextId);
      var k := d.id.value;
      store := store[k := d];
      if k >= nextId {
        nextId := k + 1;
      }
      log := log + [Chamada.Salvar(produto.Dados())];
      salvo := new Produto.Reconstituir(d.id, d.nome, d.descricao, d.preco, d.estoque, d.categoria, d.dataCriacao);
    }

    /** `buscarPorId`: a copy of the stored item, or none when the id is absent (not an error). */
    method BuscarPorId(id: int) returns (r: Option<Produto>)
      requires Valid()
      modifies this`log
      ensures r.Some? <==> id in store
      ensures r.Some? ==> fresh(r.value) && r.value.Dados() == store[id]
      ensures log == old(log) + [Chamada.BuscarPorId(id)]
    {
      log := log + [Chamada.BuscarPorId(id)];
      if id !in store {
        return None;
      }
      var d := store[id];
      var p := new Produto.Reconstituir(d.id, d.nome, d.descricao, d.preco, d.estoque, d.categoria, d.dataCriacao);
      return Some(p);
    }

    /** `buscarTodos`: one copy of each stored item, in no particular order. */
    method BuscarTodos() returns (r: seq<Produto>)
      requires Valid()
      modifies this`log
      ensures forall i | 0 <= i < |r| :: fresh(r[i])
      ensures CopiasExatas(r, store, store.Keys)
      ensures log == old(log) + [Chamada.BuscarTodos(r)]
    {
      r := Copias(store.Keys);
      log := log + [Chamada.BuscarTodos(r)];
    }

    /** `buscarPorCategoria`: one copy of each stored item whose category equals `categoria`, and no other. */
    method BuscarPorCategoria(categoria: string) returns (r: seq<Produto>)
      requires Valid()
      modifies this`log
      ensures forall i | 0 <= i < |r| :: fresh(r[i])
      ensures CopiasExatas(r, store, set k | k in store && store[k].categoria == Some(categoria))
      ensures log == old(log) + [Chamada.BuscarPorCategoria(categoria, r)]
    {
      r := Copias(set k | k in store && store[k].categoria == Some(categoria));
      log := log + [Chamada.BuscarPorCategoria(categoria, r)];
    }

    /** `deletar`: the id no longer resolves; every other entry stays as it was. */
    method Deletar(id: int)
      requires Valid()
      modifies this`store, this`log
      ensures Valid()
      ensures store == old(store) - {id}
      ensures log == old(log) + [Chamada.Deletar(id)]
    {
      store := store - {id};
      log := log + [Chamada.Deletar(id)];
    }

    /** `existe`: true exactly when `BuscarPorId` would find the id. */
    method Existe(id: int) returns (b: bool)
      modifies this`log
      ensures b <==> id in store
      ensures log == old(log) + [Chamada.Existe(id)]
    {
      log := log + [Chamada.Existe(id)];
      b := id in store;
    }

    /** Fresh copies of the items stored under `ks`, in an arbitrary order. */
    method Copias(ks: set<int>) returns (r: seq<Produto>)
      requires Valid() && ks <= store.Keys
      ensures forall i | 0 <= i < |r| :: fresh(r[i])
      ensures CopiasExatas(r, store, ks)
    {
      var chaves := Enumerar(ks);
      assert forall j | 0 <= j < |chaves| :: chaves[j] in chaves;
      r := [];
      for i := 0 to |chaves|
        invariant |r| == i
        invariant forall j | 0 <= j < i :: fresh(r[j]) && r[j].Dados() == store[chaves[j]]
      {
        var d := store[chaves[i]];
        var p := new Produto.Reconstituir(d.id, d.nome, d.descricao, d.preco, d.estoque, d.categoria, d.dataCriacao);
        r := r + [p];
      }
      assert forall j | 0 <= j < |r| :: r[j].id == Some(chaves[j]);
    }
  }
}
