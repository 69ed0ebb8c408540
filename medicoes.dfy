/** The measurement controller: measurements under a sample, with no key constraint. */
module Medicoes {
  import opened Records
  import opened Uniqueness
  import opened Database

  class MedicaoController {
    const db: Store

    constructor (db: Store)
      ensures this.db == db
    {
      this.db := db;
    }

    /** The sample's measurements (possibly none), or 404 unless the sample is in the product's project. */
    method List(produtoId: Id, projetoId: Id, amostraId: Id) returns (r: Outcome<map<Id, Medicao>>)
      ensures r.status == Ok <==> db.AmostraIn(amostraId, projetoId, produtoId)
      ensures r.status != Ok ==> r == Outcome(NotFound, None)
      ensures r.status == Ok ==> r.data == Some(Children(db.medicoes, MedicaoParent, amostraId))
    {
      if !db.AmostraIn(amostraId, projetoId, produtoId) {
        return Outcome(NotFound, None);
      }
      var medicoes := Children(db.medicoes, MedicaoParent, amostraId);
      r := Outcome(Ok, Some(medicoes));
    }

    /** Creates a measurement of the sample; 404 unless the sample is in the product's project. */
    method Create(newId: Id, produtoId: Id, projetoId: Id, amostraId: Id, tipoMedicao: string)
      returns (r: Outcome<(Id, Medicao)>)
      requires newId !in db.medicoes
      modifies db`medicoes
      ensures r.status == Created <==> db.AmostraIn(amostraId, projetoId, produtoId)
      ensures r.status != Created ==> r == Outcome(NotFound, None) && unchanged(db)
      ensures r.status == Created ==>
        && r.data == Some((newId, Medicao(amostraId, tipoMedicao)))
        && db.medicoes == old(db.medicoes)[newId := Medicao(amostraId, tipoMedicao)]
    {
      if !db.AmostraIn(amostraId, projetoId, produtoId) {
        return Outcome(NotFound, None);
      }
      var m := Medicao(amostraId, tipoMedicao);
      db.medicoes := db.medicoes[newId := m];
      r := Outcome(Created, Some((newId, m)));
    }

    /** Sets the `tipoMedicao` of a measurement; 404 unless it is in the full four-level chain. */
    method Update(produtoId: Id, projetoId: Id, amostraId: Id, medicaoId: Id, tipoMedicao: string)
      returns (r: Outcome<(Id, Medicao)>)
      modifies db`medicoes
      ensures r.status == Ok <==> old(db.MedicaoIn(medicaoId, amostraId, projetoId, produtoId))
      ensures r.status != Ok ==> r == Outcome(NotFound, None) && unchanged(db)
      ensures r.status == Ok ==>
        && r.data == Some((medicaoId, Medicao(amostraId, tipoMedicao)))
        && db.medicoes == old(db.medicoes)[medicaoId := Medicao(amostraId, tipoMedicao)]
    {
      if !db.MedicaoIn(medicaoId, amostraId, projetoId, produtoId) {
        return Outcome(NotFound, None);
      }
      var m := db.medicoes[medicaoId].(tipoMedicao := tipoMedicao);
      db.medicoes := db.medicoes[medicaoId := m];
      r := Outcome(Ok, Some((medicaoId, m)));
    }

    /** Removes a measurement; 404 unless it is in the full four-level chain. */
    method Delete(produtoId: Id, projetoId: Id, amostraId: Id, medicaoId: Id) returns (r: Outcome<()>)
      modifies db`medicoes
      ensures r.data.None?
      ensures r.status == Ok <==> old(db.MedicaoIn(medicaoId, amostraId, projetoId, produtoId))
      ensures r.status != Ok ==> r.status == NotFound && unchanged(db)
      ensures r.status == Ok ==> db.medicoes == old(db.medicoes) - {medicaoId}
    {
      if !db.MedicaoIn(medicaoId, amostraId, projetoId, produtoId) {
        return Outcome(NotFound, None);
      }
      db.medicoes := db.medicoes - {medicaoId};
      r := Outcome(Ok, None);
    }
  }
}
