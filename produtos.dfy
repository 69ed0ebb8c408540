/** The product controller: the root table, with a globally unique `referencia`. */
module Produtos {
  import opened Records
  import opened Uniqueness
  import opened Database

  class ProdutoController {
    const db: Store

    constructor (db: Store)
      ensures this.db == db
    {
      this.db := db;
    }

    /** All products. The nested parameters, projects, samples and measurements loaded with them are not modelled. */
    method List() returns (r: Outcome<map<Id, Produto>>)
      ensures r.status == Ok && r.data == Some(db.produtos)
    {
      r := Outcome(Ok, Some(db.produtos));
    }

    /** One product by id, or 404. */
    method Show(id: Id) returns (r: Outcome<Produto>)
      ensures r.status == Ok <==> id in db.produtos
      ensures r.status == Ok ==> r.data == Some(db.produtos[id])
      ensures r.status != Ok ==> r == Outcome(NotFound, None)
    {
      if id in db.produtos {
        r := Outcome(Ok, Some(db.produtos[id]));
      } else {
        r := Outcome(NotFound, None);
      }
    }

    /**
     * Creates a product under the fresh id `newId`. All three fields are
     * required; a `referencia` another product holds is refused by the
     * database's unique constraint and answered with 409.
     */
    method Create(newId: Id, nome: Option<string>, tipo: Option<string>, referencia: Option<string>)
      returns (r: Outcome<(Id, Produto)>)
      requires db.Valid()
      requires newId !in db.produtos
      modifies db`produtos
      ensures db.Valid()
      ensures !(Truthy(nome) && Truthy(tipo) && Truthy(referencia)) ==> r == Outcome(BadRequest, None)
      ensures Truthy(nome) && Truthy(tipo) && Truthy(referencia) ==>
        (r.status == Conflict <==> Taken(old(db.produtos), ProdutoParent, ProdutoKey, Global, referencia.value, None))
      ensures r.status != Created ==> r.data.None? && unchanged(db)
      ensures r.status in {Created, BadRequest, Conflict}
      ensures r.status == Created <==>
        Truthy(nome) && Truthy(tipo) && Truthy(referencia)
        && !Taken(old(db.produtos), ProdutoParent, ProdutoKey, Global, referencia.value, None)
      ensures r.status == Created ==>
        var p := Produto(nome.value, tipo.value, referencia.value);
        && Truthy(nome) && Truthy(tipo) && Truthy(referencia)
        && r.data == Some((newId, p))
        && db.produtos == old(db.produtos)[newId := p]
        && |db.produtos| == |old(db.produtos)| + 1
    {
      if !Truthy(nome) || !Truthy(tipo) || !Truthy(referencia) {
        return Outcome(BadRequest, None);
      }
      if Taken(db.produtos, ProdutoParent, ProdutoKey, Global, referencia.value, None) {
        return Outcome(Conflict, None);
      }
      var p := Produto(nome.value, tipo.value, referencia.value);
      StoreKeepsUnique(db.produtos, ProdutoParent, ProdutoKey, newId, p);
      db.produtos := db.produtos[newId := p];
      r := Outcome(Created, Some((newId, p)));
    }

    /**
     * Partial update: each of `referencia`, `nome`, `tipo` is written only
     * when defined. 404 for an unknown id, 400 when nothing is defined, 409
     * when the new `referencia` is held by another product.
     */
    method Update(id: Id, referencia: Option<string>, nome: Option<string>, tipo: Option<string>)
      returns (r: Outcome<()>)
      requires db.Valid()
      modifies db`produtos
      ensures db.Valid()
      ensures r.data.None?
      ensures r.status == NotFound <==> id !in old(db.produtos)
      ensures r.status == BadRequest <==> id in old(db.produtos) && referencia.None? && nome.None? && tipo.None?
      ensures r.status == Conflict <==>
        && id in old(db.produtos) && referencia.Some?
        && Taken(old(db.produtos), ProdutoParent, ProdutoKey, Global, referencia.value, Some(id))
      ensures r.status in {Ok, NotFound, BadRequest, Conflict}
      ensures r.status == Ok <==>
        && id in old(db.produtos) && (referencia.Some? || nome.Some? || tipo.Some?)
        && !(referencia.Some? && Taken(old(db.produtos), ProdutoParent, ProdutoKey, Global, referencia.value, Some(id)))
      ensures r.status != Ok ==> unchanged(db)
      ensures r.status == Ok ==>
        var was := old(db.produtos[id]);
        && id in old(db.produtos)
        && db.produtos == old(db.produtos)[id := Produto(nome.GetOr(was.nome), tipo.GetOr(was.tipo), referencia.GetOr(was.referencia))]
    {
      if id !in db.produtos {
        return Outcome(NotFound, None);
      }
      var p := db.produtos[id];
      var defined := false;
      if referencia.Some? { p := p.(referencia := referencia.value); defined := true; }
      if nome.Some? { p := p.(nome := nome.value); defined := true; }
      if tipo.Some? { p := p.(tipo := tipo.value); defined := true; }
      if !defined {
        return Outcome(BadRequest, None);
      }
      if referencia.Some? && Taken(db.produtos, ProdutoParent, ProdutoKey, Global, referencia.value, Some(id)) {
        return Outcome(Conflict, None);
      }
      if referencia.None? {
        OwnKeyNotTaken(db.produtos, ProdutoParent, ProdutoKey, id);
      }
      StoreKeepsUnique(db.produtos, ProdutoParent, ProdutoKey, id, p);
      db.produtos := db.produtos[id := p];
      r := Outcome(Ok, None);
    }

    /** Removes a product; 404 for an unknown id. Descendant rows are not modelled as removed. */
    method Delete(id: Id) returns (r: Outcome<()>)
      requires db.Valid()
      modifies db`produtos
      ensures db.Valid()
      ensures r.data.None?
      ensures r.status == Ok <==> id in old(db.produtos)
      ensures r.status != Ok ==> r.status == NotFound && unchanged(db)
      ensures r.status == Ok ==> db.produtos == old(db.produtos) - {id}
    {
      if id !in db.produtos {
        return Outcome(NotFound, None);
      }
      RemoveKeepsUnique(db.produtos, ProdutoParent, ProdutoKey, id);
      db.produtos := db.produtos - {id};
      r := Outcome(Ok, None);
    }
  }
}
