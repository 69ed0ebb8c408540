/** The project controller: projects under a product, `numero` unique per product. */
module Projetos {
  import opened Records
  import opened Uniqueness
  import opened Database

  class ProjetoController {
    const db: Store

    constructor (db: Store)
      ensures this.db == db
    {
      this.db := db;
    }

    /**
     * The product with its projects, each with its samples, or 404 when the
     * product is missing.
     */
    method List(produtoId: Id) returns (r: Outcome<(Produto, map<Id, (Projeto, map<Id, Amostra>)>)>)
      ensures r.status == Ok <==> produtoId in db.produtos
      ensures r.status != Ok ==> r == Outcome(NotFound, None)
      ensures r.status == Ok ==>
        && r.data.Some?
        && r.data.value.0 == db.produtos[produtoId]
        && r.data.value.1.Keys == Children(db.projetos, ProjetoParent, produtoId).Keys
        && forall id | id in r.data.value.1 ::
             r.data.value.1[id] == (db.projetos[id], Children(db.amostras, AmostraParent, id))
    {
      if produtoId !in db.produtos {
        return Outcome(NotFound, None);
      }
      var projetos := Children(db.projetos, ProjetoParent, produtoId);
      var comAmostras := map id | id in projetos :: (projetos[id], Children(db.amostras, AmostraParent, id));
      r := Outcome(Ok, Some((db.produtos[produtoId], comAmostras)));
    }

    /** One project of the product with its samples; 404 when the project is not filed under that product. */
    method Show(produtoId: Id, projetoId: Id) returns (r: Outcome<(Projeto, map<Id, Amostra>)>)
      ensures r.status == Ok <==> projetoId in db.projetos && db.projetos[projetoId].produtoId == produtoId
      ensures r.status != Ok ==> r == Outcome(NotFound, None)
      ensures r.status == Ok ==> r.data == Some((db.projetos[projetoId], Children(db.amostras, AmostraParent, projetoId)))
    {
      if !db.ProjetoIn(projetoId, produtoId) {
        return Outcome(NotFound, None);
      }
      var amostras := Children(db.amostras, AmostraParent, projetoId);
      r := Outcome(Ok, Some((db.projetos[projetoId], amostras)));
    }

    /**
     * Creates a project. 400 when `numero` is falsy (checked before any
     * lookup), 404 for a missing product, 409 when the product already has a
     * project with that `numero`.
     */
    method Create(newId: Id, produtoId: Id, numero: Option<string>) returns (r: Outcome<(Id, Projeto)>)
      requires newId !in db.projetos
      modifies db`projetos
      ensures !Truthy(numero) ==> r == Outcome(BadRequest, None)
      ensures Truthy(numero) && produtoId !in db.produtos ==> r == Outcome(NotFound, None)
      ensures Truthy(numero) && produtoId in db.produtos ==>
        (r.status == Conflict <==> Taken(old(db.projetos), ProjetoParent, ProjetoKey, produtoId, numero.value, None))
      ensures r.status in {Created, BadRequest, NotFound, Conflict}
      ensures r.status == Created <==>
        Truthy(numero) && produtoId in db.produtos && !Taken(old(db.projetos), ProjetoParent, ProjetoKey, produtoId, numero.value, None)
      ensures r.status != Created ==> r.data.None? && unchanged(db)
      ensures r.status == Created ==>
        && Truthy(numero) && produtoId in db.produtos
        && r.data == Some((newId, Projeto(produtoId, numero.value)))
        && db.projetos == old(db.projetos)[newId := Projeto(produtoId, numero.value)]
      ensures ScopeUnique(old(db.projetos), ProjetoParent, ProjetoKey) ==> ScopeUnique(db.projetos, ProjetoParent, ProjetoKey)
    {
      if !Truthy(numero) {
        return Outcome(BadRequest, None);
      }
      if produtoId !in db.produtos {
        return Outcome(NotFound, None);
      }
      if Taken(db.projetos, ProjetoParent, ProjetoKey, produtoId, numero.value, None) {
        return Outcome(Conflict, None);
      }
      var p := Projeto(produtoId, numero.value);
      if ScopeUnique(db.projetos, ProjetoParent, ProjetoKey) {
        StoreKeepsUnique(db.projetos, ProjetoParent, ProjetoKey, newId, p);
      }
      db.projetos := db.projetos[newId := p];
      r := Outcome(Created, Some((newId, p)));
    }

    /**
     * Sets the `numero` of a project of the product. 404 when the project is
     * not filed under the product; 409 when another project of the product
     * (the project itself excluded) has that `numero`.
     */
    method Update(produtoId: Id, projetoId: Id, numero: string) returns (r: Outcome<(Id, Projeto)>)
      modifies db`projetos
      ensures !old(db.ProjetoIn(projetoId, produtoId)) ==> r == Outcome(NotFound, None)
      ensures old(db.ProjetoIn(projetoId, produtoId)) ==>
        (r.status == Conflict <==> Taken(old(db.projetos), ProjetoParent, ProjetoKey, produtoId, numero, Some(projetoId)))
      ensures r.status in {Ok, NotFound, Conflict}
      ensures r.status == Ok <==>
        old(db.ProjetoIn(projetoId, produtoId)) && !Taken(old(db.projetos), ProjetoParent, ProjetoKey, produtoId, numero, Some(projetoId))
      ensures r.status != Ok ==> r.data.None? && unchanged(db)
      ensures r.status == Ok ==>
        && old(db.ProjetoIn(projetoId, produtoId))
        && r.data == Some((projetoId, Projeto(produtoId, numero)))
        && db.projetos == old(db.projetos)[projetoId := Projeto(produtoId, numero)]
      ensures ScopeUnique(old(db.projetos), ProjetoParent, ProjetoKey) ==> ScopeUnique(db.projetos, ProjetoParent, ProjetoKey)
    {
      if !db.ProjetoIn(projetoId, produtoId) {
        return Outcome(NotFound, None);
      }
      if Taken(db.projetos, ProjetoParent, ProjetoKey, produtoId, numero, Some(projetoId)) {
        return Outcome(Conflict, None);
      }
      var p := db.projetos[projetoId].(numero := numero);
      if ScopeUnique(db.projetos, ProjetoParent, ProjetoKey) {
        StoreKeepsUnique(db.projetos, ProjetoParent, ProjetoKey, projetoId, p);
      }
      db.projetos := db.projetos[projetoId := p];
      r := Outcome(Ok, Some((projetoId, p)));
    }

    /** Removes a project of the product; 404 when it is not filed under the product. */
    method Delete(produtoId: Id, projetoId: Id) returns (r: Outcome<()>)
      modifies db`projetos
      ensures r.data.None?
      ensures r.status == Ok <==> old(db.ProjetoIn(projetoId, produtoId))
      ensures r.status != Ok ==> r.status == NotFound && unchanged(db)
      ensures r.status == Ok ==> db.projetos == old(db.projetos) - {projetoId}
    {
      if !db.ProjetoIn(projetoId, produtoId) {
        return Outcome(NotFound, None);
      }
      db.projetos := db.projetos - {projetoId};
      r := Outcome(Ok, None);
    }
  }
}
