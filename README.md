# api-produtos: the scoped CRUD core, in Dafny

This project models the six Express controllers of the product API:
`ProdutoController`, `ParametroProdutoController`, `ProjetoController`,
`AmostraController`, `MedicaoController` and `ParametroMedicaoController`.
Underneath, they form one small in-memory relational store. Each table maps an
id to a row, and every non-root row carries its parent's id. The tree is
Produto → Projeto → Amostra → Medicao → ParametroMedicao. ParametroProduto
hangs directly off Produto.

Each controller method follows the same steps:
1. Check the required body fields.
2. Resolve the identifier chain. A row filed under another parent counts as missing.
3. Run the scope-local duplicate lookup.
4. Insert, patch or remove one row.
5. Answer 200/201, 400, 404 or 409.

Files:

- `records.dfy` (module `Records`): the six row datatypes, `Option`, the
  `Status`/`Outcome` result and JavaScript truthiness of optional body
  fields. It also gives each row's parent and natural key.
- `uniqueness.dfy` (module `Uniqueness`): `Taken`, the duplicate lookup.
  It optionally excludes one id (for self-exclusion on update).
  `ScopeUnique` is the "no two siblings share a key" invariant. `Children`
  is the "rows whose parent is s" listing. The module also holds the lemmas
  relating these three.
- `database.dfy` (module `Database`): class `Store` with one map field per
  table. `Valid()` is the database unique constraint on
  `Produto.referencia`. The chain-membership predicates (`ProjetoIn`,
  `AmostraIn`, `MedicaoIn`, `ParametroMedicaoIn`, `ParametroProdutoIn`)
  stand in for the nested relation filters of the queries.
- `produtos.dfy`, `projetos.dfy`, `parametros_produto.dfy`, `amostras.dfy`,
  `medicoes.dfy`, `parametros_medicao.dfy`: one controller class per source
  controller. Each holds the shared `Store` as `db`, in place of the global
  database client. Each mutating method may modify only its own table
  (`modifies db`<table>`). Every answer other than 200/201 leaves the store
  unchanged (`unchanged(db)`).
- `scenarios.dfy` (module `Scenarios`): short request sequences replayed on
  a fresh store through the controllers. They show each duplicate rule at
  work: the same key is refused in its own scope and accepted in a sibling
  scope.

Conventions of the model:

- A body field that may be undefined is an `Option`. A text field is falsy
  when it is undefined or `""`.
- A create receives a fresh id (`newId`, not yet in its table) in place of
  the database's id generator.
- Status codes follow the code, quirks included:
  - duplicates are answered 400, not 409, by the sample and
    measurement-parameter creates;
  - sample update makes no duplicate check;
  - product-parameter create makes no name check;
  - product `referencia` uniqueness comes from the database's unique
    constraint (the P2002 handler), modelled as the store invariant
    `Valid()`.

Behaviour of the code that the model keeps as it is:

- Product parameters carry no name check:
  `ParametrosProduto.ParametroProdutoController.Create` lets siblings with
  the same name coexist.
- Sample codes are checked per project on create only. Sample update writes
  any `codigo`. `Uniqueness.RewriteMayBreakUnique` shows that such an
  unchecked rewrite can leave two samples of one project with one code.
- A broken link anywhere in the identifier chain gives the same single 404,
  whichever level failed.
- A duplicate is answered 409 by the product and project controllers, and
  400 by the sample and measurement-parameter controllers.

## Model

| member | source | states |
|---|---|---|
| Produtos.ProdutoController.List | src/controllers/produto.controller.ts:5-30 | 200 with the whole product table |
| Produtos.ProdutoController.Create | src/controllers/produto.controller.ts:40-82 | 400 with the store unchanged unless nome, tipo and referencia are all truthy. Otherwise 409 with the store unchanged exactly when another product holds the referencia. 201 exactly when all three are truthy and the referencia is free, and then exactly one product with the given fields is added under the fresh id and returned. The referencia uniqueness invariant is kept |
| Produtos.ProdutoController.Show | src/controllers/produto.controller.ts:92-127 | 200 with the stored product iff the id exists, else 404 with no data |
| Produtos.ProdutoController.Update | src/controllers/produto.controller.ts:137-192 | 404 exactly for an unknown id. 400 exactly when the id exists and no field is defined. 409 exactly when the id exists and a defined referencia is held by another product (self excluded). All three leave the store unchanged. 200 exactly in the remaining case, and then only the defined fields of that one product are overwritten. The uniqueness invariant is kept |
| Produtos.ProdutoController.Delete | src/controllers/produto.controller.ts:202-224 | 200 iff the id exists, and then exactly that product is removed. Otherwise 404 with the store unchanged |
| Projetos.ProjetoController.List | src/controllers/projeto.controller.ts:5-29 | 404 iff the product is missing. Otherwise 200 with the product and exactly its projects, each paired with exactly its own samples |
| Projetos.ProjetoController.Show | src/controllers/projeto.controller.ts:37-58 | 200 iff the project exists and is filed under the product. It returns the project and exactly its samples. Otherwise 404 |
| Projetos.ProjetoController.Create | src/controllers/projeto.controller.ts:67-109 | 400 for a falsy numero before any lookup. Then 404 for a missing product. Then 409 exactly when that product already has the numero. 201 exactly when the numero is truthy, the product exists and the numero is free in it, and then one project is added with that numero and produtoId. Failures change nothing. Per-product numero uniqueness is kept |
| Projetos.ProjetoController.Update | src/controllers/projeto.controller.ts:118-157 | 404 unless the project is under the product, even if it exists elsewhere. 409 exactly when another project of the product (self excluded) has the numero. 200 exactly when the project is under the product and the numero is free among its siblings, and then only that project's numero changes. Per-product numero uniqueness is kept |
| Projetos.ProjetoController.Delete | src/controllers/projeto.controller.ts:167-184 | 200 iff the project is under the product, and then exactly that project is removed. Otherwise 404 with the store unchanged |
| ParametrosProduto.ParametroProdutoController.List | src/controllers/parametroProduto.controller.ts:5-27 | 404 iff the product is missing. Otherwise 200 with exactly that product's parameters |
| ParametrosProduto.ParametroProdutoController.Create | src/controllers/parametroProduto.controller.ts:36-71 | 400 before any lookup for a falsy nome, undefined valor or empty product id. Then 404 for a missing product. Otherwise 201 adds one parameter with parent produtoId, with no name check. Failures change nothing |
| ParametrosProduto.ParametroProdutoController.Update | src/controllers/parametroProduto.controller.ts:81-119 | 400 before any lookup when nome is falsy and valor and unidade are undefined. 404 when the parameter is missing or belongs to another product. On 200 only the supplied fields are overwritten. Failures change nothing |
| ParametrosProduto.ParametroProdutoController.Delete | src/controllers/parametroProduto.controller.ts:128-152 | 200 iff the parameter exists under the product, and then only it is removed. Otherwise 404 with the store unchanged |
| Amostras.AmostraController.List | src/controllers/amostra.controller.ts:5-35 | 404 unless the project is under the product. Otherwise 200 with exactly that project's samples |
| Amostras.AmostraController.Create | src/controllers/amostra.controller.ts:45-83 | 404 unless the project is under the product. Then 400 exactly when the project already has the codigo. 201 exactly when the project is under the product and the codigo is free in it, and then one sample is added with parent projetoId. Failures change nothing. Per-project codigo uniqueness is kept |
| Amostras.AmostraController.Update | src/controllers/amostra.controller.ts:93-124 | 200 iff the sample is under project and product, and then only its codigo changes, with no duplicate check. Otherwise 404 with the store unchanged |
| Amostras.AmostraController.Delete | src/controllers/amostra.controller.ts:134-160 | 200 iff the sample is under project and product, and then only it is removed. Otherwise 404 with the store unchanged |
| Medicoes.MedicaoController.List | src/controllers/medicao.controller.ts:5-34 | 404 unless the sample is in the product-project chain. Otherwise 200 with exactly the measurements whose parent is the sample, possibly none |
| Medicoes.MedicaoController.Create | src/controllers/medicao.controller.ts:44-77 | 201 iff the sample is in the chain, adding one measurement linked to it with no key check. Otherwise 404 with the store unchanged |
| Medicoes.MedicaoController.Update | src/controllers/medicao.controller.ts:87-121 | 200 iff the measurement is in the four-level chain, and then only its tipoMedicao changes. Otherwise 404 with the store unchanged |
| Medicoes.MedicaoController.Delete | src/controllers/medicao.controller.ts:131-162 | 200 iff the measurement is in the four-level chain, and then only it is removed. Otherwise 404 with the store unchanged |
| ParametrosMedicao.ParametroMedicaoController.List | src/controllers/parametroMedicao.controller.ts:5-33 | 404 unless the measurement is in the full chain. Otherwise 200 with exactly its parameters |
| ParametrosMedicao.ParametroMedicaoController.Create | src/controllers/parametroMedicao.controller.ts:43-95 | 404 unless the measurement is in the chain. Then 400 exactly when it already has a parameter with that nome. 201 exactly when the measurement is in the chain and the nome is free in it, and then one parameter is added with parent medicaoId. Failures change nothing. Per-measurement nome uniqueness is kept |
| ParametrosMedicao.ParametroMedicaoController.Update | src/controllers/parametroMedicao.controller.ts:105-163 | 200 iff the parameter is in the five-level chain. Then only valor changes (nome, unidade and parent untouched) and the answer is the id and new valor. Otherwise 404 with the store unchanged. Nome uniqueness is kept |
| ParametrosMedicao.ParametroMedicaoController.Delete | src/controllers/parametroMedicao.controller.ts:174-209 | 200 iff the parameter is in the five-level chain, and then only it is removed. Otherwise 404 with the store unchanged |
| Uniqueness.StoreKeepsUnique | src/controllers/projeto.controller.ts:87-109 | writing a row whose key the guard (excluding the row's own id) found free keeps the table scope-unique |
| Uniqueness.RemoveKeepsUnique | src/controllers/projeto.controller.ts:180 | removing a row keeps the table scope-unique |
| Uniqueness.OwnKeyNotTaken | src/controllers/projeto.controller.ts:134-140 | self-exclusion: in a unique table, re-setting a row's own current key is never reported as a duplicate |
| Uniqueness.AtMostOneHolder | src/controllers/produto.controller.ts:175-186 | under the uniqueness invariant a key identifies at most one row of its scope |
| Uniqueness.TakenAfterInsert | src/controllers/amostra.controller.ts:61-83 | after a create, a second create with the same key in the same scope is refused. The same key in any other scope is free iff it was free before |
| Uniqueness.RewriteMayBreakUnique | src/controllers/amostra.controller.ts:115-118 | rewriting a row to another sibling's key without the guard leaves two rows sharing that key |
| Uniqueness.ChildrenAfterInsert | src/controllers/medicao.controller.ts:26-28 | after a create, listing its scope gives the old children plus the new row. Other scopes list as before |
| Uniqueness.ChildrenAfterRemove | src/controllers/medicao.controller.ts:155-157 | after a delete, every scope lists its old children less the removed row |
| Scenarios.ReferenciaIsGlobal | src/controllers/produto.controller.ts:40-82 | on a fresh store: a product is created (201); a second product with the same referencia gets 409; with another referencia it gets 201 |
| Scenarios.NumeroIsScopedPerProduct | src/controllers/projeto.controller.ts:87-109 | a project numero already used under product p is refused under p (409) and accepted under product q (201) |
| Scenarios.CodigoIsScopedPerProject | src/controllers/amostra.controller.ts:61-83 | a sample codigo already used under project a is refused under a (400) and accepted under sibling project b (201) |
| Scenarios.NomeIsScopedPerMedicao | src/controllers/parametroMedicao.controller.ts:68-95 | a parameter nome already used under measurement m is refused under m (400) and accepted under sibling measurement n (201) |
| Database.Store.ChainDeterminesAncestors | src/controllers/parametroMedicao.controller.ts:111-125 | a parameter resolves under at most one chain of measurement, sample, project and product ids |
| Database.Store.BrokenLinkFails | src/controllers/parametroMedicao.controller.ts:9-21 | a row filed under a parent other than the one named breaks the whole chain, whatever the deeper ids |

## Left out

- HTTP plumbing is not modelled: request and response objects, JSON envelopes and the Portuguese messages. The route files and the server bootstrap (CORS, Swagger) are left out too. A controller method is a store method returning an `Outcome` (status and payload).
- The `try`/`catch` 500 answers and the logging are not modelled. They are infrastructure failures.
- The database client and its query language are not modelled. Maps and the chain predicates replace them.
- The medicao routes also call a `show` method that `MedicaoController` does not define. No such operation exists to model.
- Produtos.ProdutoController.List: returns the stored product table. The nested eager load of parameters, projects, samples, measurements and their parameters is not materialised.
- Produtos.ProdutoController.Show: returns the stored product without the same nested eager load.
- Amostras.AmostraController.List: returns the samples without their nested measurements and parameters.
- Deleting a row is not modelled as removing its descendants. Cascade behaviour lives in a database schema that is not part of this model. For the same reason the store keeps no referential-integrity invariant.
- The database's rule that an undefined filter value is ignored is not modelled. The model assumes these fields are present:
  - `codigo` on sample create and update;
  - `numero` on project update;
  - `tipoMedicao` on measurement create and update;
  - `nome` and `valor` on measurement-parameter create and update.
- ParametrosProduto.ParametroProdutoController.Create: `valor` is kept as opaque text. `parseFloat` coercion and floating point are not modelled. The same holds for the update.
- Body values are modelled as text. Non-string JSON values (numbers, booleans, null) and their truthiness are not modelled.
- Id generation is not modelled. Each create takes a fresh id as a parameter.
- Concurrency is not modelled, nor the check-then-act race between a duplicate lookup and the insert. Operations run one at a time.
- ParametrosMedicao.ParametroMedicaoController.Update: the second 404 (the update touching no row) is not modelled. It cannot happen when operations run one at a time, because the same chain filter has just matched.
- The status `Code()` mapping of `Status` is a plain table from outcome kind to HTTP code and carries no contract.
