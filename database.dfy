/**
 * The database the controllers share: one table per entity, each a map from
 * id to row, every non-root row carrying its parent's id.
 */
module Database {
  import opened Records
  import opened Uniqueness

  class Store {
    var produtos: map<Id, Produto>
    var parametrosProduto: map<Id, ParametroProduto>
    var projetos: map<Id, Projeto>
    var amostras: map<Id, Amostra>
    var medicoes: map<Id, Medicao>
    var parametrosMedicao: map<Id, ParametroMedicao>

    /** The schema's unique constraint on `Produto.referencia`, which the database itself enforces. */
    ghost predicate Valid()
      reads this`produtos
    {
      ScopeUnique(produtos, ProdutoParent, ProdutoKey)
    }

    constructor ()
      ensures Valid()
      ensures produtos == map[] && parametrosProduto == map[] && projetos == map[]
      ensures amostras == map[] && medicoes == map[] && parametrosMedicao == map[]
    {
      produtos, parametrosProduto, projetos := map[], map[], map[];
      amostras, medicoes, parametrosMedicao := map[], map[], map[];
    }

    // Chain membership: a row counts as found only under the parent the
    // request names. A row filed under another parent is treated exactly
    // like a missing one.

    predicate ParametroProdutoIn(parametroId: Id, produtoId: Id)
      reads this`parametrosProduto
    {
      parametroId in parametrosProduto && parametrosProduto[parametroId].produtoId == produtoId
    }

    predicate ProjetoIn(projetoId: Id, produtoId: Id)
      reads this`projetos
    {
      projetoId in projetos && projetos[projetoId].produtoId == produtoId
    }

    predicate AmostraIn(amostraId: Id, projetoId: Id, produtoId: Id)
      reads this`amostras, this`projetos
    {
      amostraId in amostras && amostras[amostraId].projetoId == projetoId && ProjetoIn(projetoId, produtoId)
    }

    predicate MedicaoIn(medicaoId: Id, amostraId: Id, projetoId: Id, produtoId: Id)
      reads this`medicoes, this`amostras, this`projetos
    {
      medicaoId in medicoes && medicoes[medicaoId].amostraId == amostraId && AmostraIn(amostraId, projetoId, produtoId)
    }

    predicate ParametroMedicaoIn(parametroId: Id, medicaoId: Id, amostraId: Id, projetoId: Id, produtoId: Id)
      reads this`parametrosMedicao, this`medicoes, this`amostras, this`projetos
    {
      && parametroId in parametrosMedicao
      && parametrosMedicao[parametroId].medicaoId == medicaoId
      && MedicaoIn(medicaoId, amostraId, projetoId, produtoId)
    }

    /**
     * A row reachable through a chain is reachable through no other: the
     * ids of a resolved chain are fixed by its last id, so existence never
     * leaks across scopes.
     */
    lemma ChainDeterminesAncestors(parametroId: Id, m: Id, a: Id, pj: Id, pd: Id, m': Id, a': Id, pj': Id, pd': Id)
      requires ParametroMedicaoIn(parametroId, m, a, pj, pd)
      requires ParametroMedicaoIn(parametroId, m', a', pj', pd')
      ensures m == m' && a == a' && pj == pj' && pd == pd'
    {
    }

    /** Scope integrity: if any link of the chain is broken, the whole chain fails to resolve. */
    lemma BrokenLinkFails(parametroId: Id, medicaoId: Id, amostraId: Id, projetoId: Id, produtoId: Id)
      requires || (projetoId in projetos && projetos[projetoId].produtoId != produtoId)
               || (amostraId in amostras && amostras[amostraId].projetoId != projetoId)
               || (medicaoId in medicoes && medicoes[medicaoId].amostraId != amostraId)
      ensures !ParametroMedicaoIn(parametroId, medicaoId, amostraId, projetoId, produtoId)
      ensures !MedicaoIn(medicaoId, amostraId, projetoId, produtoId)
    {
    }
  }
}
