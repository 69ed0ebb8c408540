/**
 * Request sequences run against one fresh store through the controllers.
 * Each one pins down how a uniqueness rule is scoped: the same key is
 * refused again in its own scope and accepted in a sibling scope. The
 * `One…`/`Two…` methods build the stores the scenarios start from.
 */
module Scenarios {
  import opened Records
  import opened Uniqueness
  import opened Database
  import opened Produtos
  import opened Projetos
  import opened Amostras
  import opened Medicoes
  import opened ParametrosMedicao

  /** A `referencia` is unique across all products: a second product with it gets 409. */
  method ReferenciaIsGlobal() returns (first: Status, again: Status, other: Status)
    ensures first == Created && again == Conflict && other == Created
  {
    var db := new Store();
    var produtos := new ProdutoController(db);
    var r := produtos.Create("p", Some("Tinta"), Some("acrilica"), Some("REF-1"));
    first := r.status;
    r := produtos.Create("q", Some("Verniz"), Some("base agua"), Some("REF-1"));
    again := r.status;
    r := produtos.Create("q", Some("Verniz"), Some("base agua"), Some("REF-2"));
    other := r.status;
  }

  /** A store holding the single product "p" and nothing else. */
  method OneProduto() returns (db: Store)
    ensures fresh(db) && db.Valid()
    ensures db.produtos == map["p" := Produto("Tinta", "acrilica", "REF-1")]
    ensures db.projetos == map[] && db.amostras == map[] && db.medicoes == map[] && db.parametrosMedicao == map[]
  {
    db := new Store();
    var produtos := new ProdutoController(db);
    var r := produtos.Create("p", Some("Tinta"), Some("acrilica"), Some("REF-1"));
  }

  /** A store holding the products "p" and "q" and nothing else. */
  method TwoProdutos() returns (db: Store)
    ensures fresh(db)
    ensures "p" in db.produtos && "q" in db.produtos
    ensures db.projetos == map[]
  {
    db := OneProduto();
    var produtos := new ProdutoController(db);
    assert ProdutoKey(db.produtos["p"]) != "REF-2";
    var r := produtos.Create("q", Some("Verniz"), Some("base agua"), Some("REF-2"));
  }

  /** A project `numero` is unique per product: refused (409) under the same product, accepted under another. */
  method NumeroIsScopedPerProduct() returns (first: Status, again: Status, otherProduct: Status)
    ensures first == Created && again == Conflict && otherProduct == Created
  {
    var db := TwoProdutos();
    var projetos := new ProjetoController(db);
    var s := projetos.Create("a", "p", Some("P1"));
    first := s.status;
    TakenAfterInsert(map[], ProjetoParent, ProjetoKey, "a", Projeto("p", "P1"), "q", "P1");
    s := projetos.Create("b", "p", Some("P1"));
    again := s.status;
    s := projetos.Create("b", "q", Some("P1"));
    otherProduct := s.status;
  }

  /** A store holding the product "p" with its two projects "a" and "b", and no samples. */
  method TwoProjetos() returns (db: Store)
    ensures fresh(db)
    ensures db.ProjetoIn("a", "p") && db.ProjetoIn("b", "p")
    ensures db.amostras == map[]
  {
    db := OneProduto();
    var projetos := new ProjetoController(db);
    var s := projetos.Create("a", "p", Some("P1"));
    assert db.projetos == map["a" := Projeto("p", "P1")];
    assert ProjetoKey(db.projetos["a"]) != "P2";
    s := projetos.Create("b", "p", Some("P2"));
  }

  /** A sample `codigo` is unique per project: refused (400) under the same project, accepted under another. */
  method CodigoIsScopedPerProject() returns (first: Status, again: Status, otherProject: Status)
    ensures first == Created && again == BadRequest && otherProject == Created
  {
    var db := TwoProjetos();
    var amostras := new AmostraController(db);
    var t := amostras.Create("s1", "p", "a", "S1");
    first := t.status;
    TakenAfterInsert(map[], AmostraParent, AmostraKey, "s1", Amostra("a", "S1"), "b", "S1");
    t := amostras.Create("s2", "p", "a", "S1");
    again := t.status;
    t := amostras.Create("s2", "p", "b", "S1");
    otherProject := t.status;
  }

  /** A store holding the product "p", its project "a" and that project's sample "s", and no measurements. */
  method OneAmostra() returns (db: Store)
    ensures fresh(db)
    ensures db.AmostraIn("s", "a", "p")
    ensures db.medicoes == map[] && db.parametrosMedicao == map[]
  {
    db := OneProduto();
    var projetos := new ProjetoController(db);
    var amostras := new AmostraController(db);
    var s := projetos.Create("a", "p", Some("P1"));
    var t := amostras.Create("s", "p", "a", "S1");
  }

  /** The store of `OneAmostra` with two measurements "m" and "n" of its sample. */
  method TwoMedicoes() returns (db: Store)
    ensures fresh(db)
    ensures db.MedicaoIn("m", "s", "a", "p") && db.MedicaoIn("n", "s", "a", "p")
    ensures db.parametrosMedicao == map[]
  {
    db := OneAmostra();
    var medicoes := new MedicaoController(db);
    var u := medicoes.Create("m", "p", "a", "s", "viscosidade");
    u := medicoes.Create("n", "p", "a", "s", "densidade");
  }

  /** A parameter `nome` is unique per measurement: refused (400) under the same measurement, accepted under another. */
  method NomeIsScopedPerMedicao() returns (first: Status, again: Status, otherMedicao: Status)
    ensures first == Created && again == BadRequest && otherMedicao == Created
  {
    var db := TwoMedicoes();
    var parametros := new ParametroMedicaoController(db);
    var v := parametros.Create("x", "p", "a", "s", "m", "temperatura", "25", Some("C"));
    first := v.status;
    var x := ParametroMedicao("m", "temperatura", "25", Some("C"));
    TakenAfterInsert(map[], ParametroMedicaoParent, ParametroMedicaoKey, "x", x, "n", "temperatura");
    v := parametros.Create("y", "p", "a", "s", "m", "temperatura", "30", Some("C"));
    again := v.status;
    v := parametros.Create("y", "p", "a", "s", "n", "temperatura", "30", Some("C"));
    otherMedicao := v.status;
  }
}
