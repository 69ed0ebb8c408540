/** The sample controller: samples under a project of a product, `codigo` checked per project on create only. */
module Amostras {
  import opened Records
  import opened Uniqueness
  import opened Database

  class AmostraController {
    const db: Store

    constructor (db: Store)
      ensures this.db == db
    {
      this.db := db;
    }

    /** The project's samples, or 404 unless the project is filed under the product. */
    method List(produtoId: Id, projetoId: Id) returns (r: Outcome<map<Id, Amostra>>)
      ensures r.status == Ok <==> db.ProjetoIn(projetoId, produtoId)
      ensures r.status != Ok ==> r == Outcome(NotFound, None)
      ensures r.status == Ok ==> r.data == Some(Children(db.amostras, AmostraParent, projetoId))
    {
      if !db.ProjetoIn(projetoId, produtoId) {
        return Outcome(NotFound, None);
      }
      var amostras := Children(db.amostras, AmostraParent, projetoId);
      r := Outcome(Ok, Some(amostras));
    }

    /**
     * Creates a sample in the project. 404 unless the project is filed under
     * the product; 400 (not 409) when the project already has a sample with
     * that `codigo`.
     */
    method Create(newId: Id, produtoId: Id, projetoId: Id, codigo: string) returns (r: Outcome<(Id, Amostra)>)
      requires newId !in db.amostras
      modifies db`amostras
      ensures !db.ProjetoIn(projetoId, produtoId) ==> r == Outcome(NotFound, None)
      ensures db.ProjetoIn(projetoId, produtoId) ==>
        (r.status == BadRequest <==> Taken(old(db.amostras), AmostraParent, AmostraKey, projetoId, codigo, None))
      ensures r.status in {Created, BadRequest, NotFound}
      ensures r.status == Created <==>
        db.ProjetoIn(projetoId, produtoId) && !Taken(old(db.amostras), AmostraParent, AmostraKey, projetoId, codigo, None)
      ensures r.status != Created ==> r.data.None? && unchanged(db)
      ensures r.status == Created ==>
        && db.ProjetoIn(projetoId, produtoId)
        && r.data == Some((newId, Amostra(projetoId, codigo)))
        && db.amostras == old(db.amostras)[newId := Amostra(projetoId, codigo)]
      ensures ScopeUnique(old(db.amostras), AmostraParent, AmostraKey) ==> ScopeUnique(db.amostras, AmostraParent, AmostraKey)
    {
      if !db.ProjetoIn(projetoId, produtoId) {
        return Outcome(NotFound, None);
      }
      if Taken(db.amostras, AmostraParent, AmostraKey, projetoId, codigo, None) {
        return Outcome(BadRequest, None);
      }
      var a := Amostra(projetoId, codigo);
      if ScopeUnique(db.amostras, AmostraParent, AmostraKey) {
        StoreKeepsUnique(db.amostras, AmostraParent, AmostraKey, newId, a);
      }
      db.amostras := db.amostras[newId := a];
      r := Outcome(Created, Some((newId, a)));
    }

    /**
     * Sets the `codigo` of a sample. 404 unless the sample is filed under the
     * project and the project under the product. No duplicate check is made.
     */
    method Update(produtoId: Id, projetoId: Id, amostraId: Id, codigo: string) returns (r: Outcome<(Id, Amostra)>)
      modifies db`amostras
      ensures r.status == Ok <==> old(db.AmostraIn(amostraId, projetoId, produtoId))
      ensures r.status != Ok ==> r == Outcome(NotFound, None) && unchanged(db)
      ensures r.status == Ok ==>
        && r.data == Some((amostraId, Amostra(projetoId, codigo)))
        && db.amostras == old(db.amostras)[amostraId := Amostra(projetoId, codigo)]
    {
      if !db.AmostraIn(amostraId, projetoId, produtoId) {
        return Outcome(NotFound, None);
      }
      var a := db.amostras[amostraId].(codigo := codigo);
      db.amostras := db.amostras[amostraId := a];
      r := Outcome(Ok, Some((amostraId, a)));
    }

    /** Removes a sample; 404 unless it is filed under the project and the project under the product. */
    method Delete(produtoId: Id, projetoId: Id, amostraId: Id) returns (r: Outcome<()>)
      modifies db`amostras
      ensures r.data.None?
      ensures r.status == Ok <==> old(db.AmostraIn(amostraId, projetoId, produtoId))
      ensures r.status != Ok ==> r.status == NotFound && unchanged(db)
      ensures r.status == Ok ==> db.amostras == old(db.amostras) - {amostraId}
    {
      if !db.AmostraIn(amostraId, projetoId, produtoId) {
        return Outcome(NotFound, None);
      }
      db.amostras := db.amostras - {amostraId};
      r := Outcome(Ok, None);
    }
  }
}
