/** The product-parameter controller: parameters hanging directly off a product, with no name-uniqueness check. */
module ParametrosProduto {
  import opened Records
  import opened Uniqueness
  import opened Database

  class ParametroProdutoController {
    const db: Store

    constructor (db: Store)
      ensures this.db == db
    {
      this.db := db;
    }

    /** The product's parameters, or 404 when the product is missing. */
    method List(produtoId: Id) returns (r: Outcome<map<Id, ParametroProduto>>)
      ensures r.status == Ok <==> produtoId in db.produtos
      ensures r.status != Ok ==> r == Outcome(NotFound, None)
      ensures r.status == Ok ==> r.data == Some(Children(db.parametrosProduto, ParametroProdutoParent, produtoId))
    {
      if produtoId !in db.produtos {
        return Outcome(NotFound, None);
      }
      var parametros := Children(db.parametrosProduto, ParametroProdutoParent, produtoId);
      r := Outcome(Ok, Some(parametros));
    }

    /**
     * Creates a parameter of the product. 400 (before any lookup) when `nome`
     * is falsy, `valor` undefined or the product id empty; 404 for a missing
     * product. Parameters of one product may share a name.
     */
    method Create(newId: Id, produtoId: Id, nome: Option<string>, valor: Option<Valor>, unidade: Option<string>)
      returns (r: Outcome<(Id, ParametroProduto)>)
      requires newId !in db.parametrosProduto
      modifies db`parametrosProduto
      ensures !Truthy(nome) || valor.None? || produtoId == "" ==> r == Outcome(BadRequest, None)
      ensures Truthy(nome) && valor.Some? && produtoId != "" && produtoId !in db.produtos ==> r == Outcome(NotFound, None)
      ensures r.status in {Created, BadRequest, NotFound}
      ensures r.status != Created ==> r.data.None? && unchanged(db)
      ensures r.status == Created <==> Truthy(nome) && valor.Some? && produtoId != "" && produtoId in db.produtos
      ensures r.status == Created ==>
        var p := ParametroProduto(produtoId, nome.value, valor.value, unidade);
        && r.data == Some((newId, p))
        && db.parametrosProduto == old(db.parametrosProduto)[newId := p]
    {
      if !Truthy(nome) || valor.None? || produtoId == "" {
        return Outcome(BadRequest, None);
      }
      if produtoId !in db.produtos {
        return Outcome(NotFound, None);
      }
      var p := ParametroProduto(produtoId, nome.value, valor.value, unidade);
      db.parametrosProduto := db.parametrosProduto[newId := p];
      r := Outcome(Created, Some((newId, p)));
    }

    /**
     * Partial update of a parameter of the product: each defined field is
     * written. 400 (before any lookup) when `nome` is falsy and `valor` and
     * `unidade` are undefined; 404 when the parameter is missing or belongs
     * to another product.
     */
    method Update(produtoId: Id, parametroId: Id, nome: Option<string>, valor: Option<Valor>, unidade: Option<string>)
      returns (r: Outcome<(Id, ParametroProduto)>)
      modifies db`parametrosProduto
      ensures !Truthy(nome) && valor.None? && unidade.None? ==> r == Outcome(BadRequest, None)
      ensures (Truthy(nome) || valor.Some? || unidade.Some?) && !old(db.ParametroProdutoIn(parametroId, produtoId)) ==>
        r == Outcome(NotFound, None)
      ensures r.status in {Ok, BadRequest, NotFound}
      ensures r.status != Ok ==> r.data.None? && unchanged(db)
      ensures r.status == Ok <==> (Truthy(nome) || valor.Some? || unidade.Some?) && old(db.ParametroProdutoIn(parametroId, produtoId))
      ensures r.status == Ok ==>
        var was := old(db.parametrosProduto[parametroId]);
        var p := ParametroProduto(was.produtoId, nome.GetOr(was.nome), valor.GetOr(was.valor), if unidade.Some? then unidade else was.unidade);
        && r.data == Some((parametroId, p))
        && db.parametrosProduto == old(db.parametrosProduto)[parametroId := p]
    {
      if !Truthy(nome) && valor.None? && unidade.None? {
        return Outcome(BadRequest, None);
      }
      if !db.ParametroProdutoIn(parametroId, produtoId) {
        return Outcome(NotFound, None);
      }
      var p := db.parametrosProduto[parametroId];
      if nome.Some? { p := p.(nome := nome.value); }
      if valor.Some? { p := p.(valor := valor.value); }
      if unidade.Some? { p := p.(unidade := unidade); }
      db.parametrosProduto := db.parametrosProduto[parametroId := p];
      r := Outcome(Ok, Some((parametroId, p)));
    }

    /** Removes a parameter of the product; 404 when it is missing or belongs to another product. */
    method Delete(produtoId: Id, parametroId: Id) returns (r: Outcome<()>)
      modifies db`parametrosProduto
      ensures r.data.None?
      ensures r.status == Ok <==> old(db.ParametroProdutoIn(parametroId, produtoId))
      ensures r.status != Ok ==> r.status == NotFound && unchanged(db)
      ensures r.status == Ok ==> db.parametrosProduto == old(db.parametrosProduto) - {parametroId}
    {
      if !db.ParametroProdutoIn(parametroId, produtoId) {
        return Outcome(NotFound, None);
      }
      db.parametrosProduto := db.parametrosProduto - {parametroId};
      r := Outcome(Ok, None);
    }
  }
}
