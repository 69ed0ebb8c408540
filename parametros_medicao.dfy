/**
 * The measurement-parameter controller: parameters under a measurement,
 * resolved through the whole product, project, sample, measurement chain,
 * with `nome` checked per measurement and an update that writes `valor` only.
 */
module ParametrosMedicao {
  import opened Records
  import opened Uniqueness
  import opened Database

  class ParametroMedicaoController {
    const db: Store

    constructor (db: Store)
      ensures this.db == db
    {
      this.db := db;
    }

    /** The measurement's parameters, or 404 unless the measurement is in the full chain. */
    method List(produtoId: Id, projetoId: Id, amostraId: Id, medicaoId: Id) returns (r: Outcome<map<Id, ParametroMedicao>>)
      ensures r.status == Ok <==> db.MedicaoIn(medicaoId, amostraId, projetoId, produtoId)
      ensures r.status != Ok ==> r == Outcome(NotFound, None)
      ensures r.status == Ok ==> r.data == Some(Children(db.parametrosMedicao, ParametroMedicaoParent, medicaoId))
    {
      if !db.MedicaoIn(medicaoId, amostraId, projetoId, produtoId) {
        return Outcome(NotFound, None);
      }
      var parametros := Children(db.parametrosMedicao, ParametroMedicaoParent, medicaoId);
      r := Outcome(Ok, Some(parametros));
    }

    /**
     * Creates a parameter of the measurement. 404 unless the measurement is
     * in the full chain; 400 (not 409) when the measurement already has a
     * parameter with that `nome`.
     */
    method Create(newId: Id, produtoId: Id, projetoId: Id, amostraId: Id, medicaoId: Id,
                  nome: string, valor: Valor, unidade: Option<string>)
      returns (r: Outcome<(Id, ParametroMedicao)>)
      requires newId !in db.parametrosMedicao
      modifies db`parametrosMedicao
      ensures !db.MedicaoIn(medicaoId, amostraId, projetoId, produtoId) ==> r == Outcome(NotFound, None)
      ensures db.MedicaoIn(medicaoId, amostraId, projetoId, produtoId) ==>
        (r.status == BadRequest <==> Taken(old(db.parametrosMedicao), ParametroMedicaoParent, ParametroMedicaoKey, medicaoId, nome, None))
      ensures r.status in {Created, BadRequest, NotFound}
      ensures r.status == Created <==>
        && db.MedicaoIn(medicaoId, amostraId, projetoId, produtoId)
        && !Taken(old(db.parametrosMedicao), ParametroMedicaoParent, ParametroMedicaoKey, medicaoId, nome, None)
      ensures r.status != Created ==> r.data.None? && unchanged(db)
      ensures r.status == Created ==>
        var p := ParametroMedicao(medicaoId, nome, valor, unidade);
        && db.MedicaoIn(medicaoId, amostraId, projetoId, produtoId)
        && r.data == Some((newId, p))
        && db.parametrosMedicao == old(db.parametrosMedicao)[newId := p]
      ensures ScopeUnique(old(db.parametrosMedicao), ParametroMedicaoParent, ParametroMedicaoKey) ==>
        ScopeUnique(db.parametrosMedicao, ParametroMedicaoParent, ParametroMedicaoKey)
    {
      if !db.MedicaoIn(medicaoId, amostraId, projetoId, produtoId) {
        return Outcome(NotFound, None);
      }
      if Taken(db.parametrosMedicao, ParametroMedicaoParent, ParametroMedicaoKey, medicaoId, nome, None) {
        return Outcome(BadRequest, None);
      }
      var p := ParametroMedicao(medicaoId, nome, valor, unidade);
      if ScopeUnique(db.parametrosMedicao, ParametroMedicaoParent, ParametroMedicaoKey) {
        StoreKeepsUnique(db.parametrosMedicao, ParametroMedicaoParent, ParametroMedicaoKey, newId, p);
      }
      db.parametrosMedicao := db.parametrosMedicao[newId := p];
      r := Outcome(Created, Some((newId, p)));
    }

    /**
     * Sets the `valor` of a parameter; 404 unless the parameter is in the
     * full five-level chain. `nome`, `unidade` and the parent are untouched,
     * so the per-measurement uniqueness of names is kept. The answer carries
     * the id and the new `valor` only.
     */
    method Update(produtoId: Id, projetoId: Id, amostraId: Id, medicaoId: Id, parametroId: Id, valor: Valor)
      returns (r: Outcome<(Id, Valor)>)
      modifies db`parametrosMedicao
      ensures r.status == Ok <==> old(db.ParametroMedicaoIn(parametroId, medicaoId, amostraId, projetoId, produtoId))
      ensures r.status != Ok ==> r == Outcome(NotFound, None) && unchanged(db)
      ensures r.status == Ok ==>
        var was := old(db.parametrosMedicao[parametroId]);
        && r.data == Some((parametroId, valor))
        && db.parametrosMedicao == old(db.parametrosMedicao)[parametroId := ParametroMedicao(was.medicaoId, was.nome, valor, was.unidade)]
      ensures ScopeUnique(old(db.parametrosMedicao), ParametroMedicaoParent, ParametroMedicaoKey) ==>
        ScopeUnique(db.parametrosMedicao, ParametroMedicaoParent, ParametroMedicaoKey)
    {
      if !db.ParametroMedicaoIn(parametroId, medicaoId, amostraId, projetoId, produtoId) {
        return Outcome(NotFound, None);
      }
      var p := db.parametrosMedicao[parametroId].(valor := valor);
      if ScopeUnique(db.parametrosMedicao, ParametroMedicaoParent, ParametroMedicaoKey) {
        OwnKeyNotTaken(db.parametrosMedicao, ParametroMedicaoParent, ParametroMedicaoKey, parametroId);
        StoreKeepsUnique(db.parametrosMedicao, ParametroMedicaoParent, ParametroMedicaoKey, parametroId, p);
      }
      db.parametrosMedicao := db.parametrosMedicao[parametroId := p];
      r := Outcome(Ok, Some((parametroId, valor)));
    }

    /** Removes a parameter; 404 unless it is in the full five-level chain. */
    method Delete(produtoId: Id, projetoId: Id, amostraId: Id, medicaoId: Id, parametroId: Id) returns (r: Outcome<()>)
      modifies db`parametrosMedicao
      ensures r.data.None?
      ensures r.status == Ok <==> old(db.ParametroMedicaoIn(parametroId, medicaoId, amostraId, projetoId, produtoId))
      ensures r.status != Ok ==> r.status == NotFound && unchanged(db)
      ensures r.status == Ok ==> db.parametrosMedicao == old(db.parametrosMedicao) - {parametroId}
    {
      if !db.ParametroMedicaoIn(parametroId, medicaoId, amostraId, projetoId, produtoId) {
        return Outcome(NotFound, None);
      }
      db.parametrosMedicao := db.parametrosMedicao - {parametroId};
      r := Outcome(Ok, None);
    }
  }
}
