/**
 * The rows of the six tables behind the product API, the optional fields of
 * a request body, and the outcome every controller method returns.
 */
module Records {

  /** Row identifiers, as the database generates them. */
  type Id = string

  /** A parameter value. Its coercion to floating point is not modelled: it is kept as opaque text. */
  type Valor = string

  datatype Option<T> = None | Some(value: T) {
    /** The carried value, or `default` when the field was left undefined. */
    function GetOr(default: T): T {
      match this
      case Some(v) => v
      case None => default
    }
  }

  /** JavaScript truthiness of an optional text field: undefined and "" are falsy. */
  predicate Truthy(v: Option<string>) {
    v.Some? && v.value != ""
  }

  datatype Produto = Produto(nome: string, tipo: string, referencia: string)
  datatype ParametroProduto = ParametroProduto(produtoId: Id, nome: string, valor: Valor, unidade: Option<string>)
  datatype Projeto = Projeto(produtoId: Id, numero: string)
  datatype Amostra = Amostra(projetoId: Id, codigo: string)
  datatype Medicao = Medicao(amostraId: Id, tipoMedicao: string)
  datatype ParametroMedicao = ParametroMedicao(medicaoId: Id, nome: string, valor: Valor, unidade: Option<string>)

  /** The HTTP statuses the controllers answer with (the 500 path is infrastructure and is not modelled). */
  datatype Status = Ok | Created | BadRequest | NotFound | Conflict {
    function Code(): int {
      match this
      case Ok => 200
      case Created => 201
      case BadRequest => 400
      case NotFound => 404
      case Conflict => 409
    }
  }

  /** A status and the `data` payload of the JSON envelope, if the answer carries one. */
  datatype Outcome<T> = Outcome(status: Status, data: Option<T>)

  // The parent (scope) and natural key of each row, in the form the
  // uniqueness guard and the children listing take them.

  /** `referencia` is unique across all products: every product lies in the one global scope. */
  const Global: Id := ""

  function ProdutoParent(p: Produto): Id { Global }
  function ProdutoKey(p: Produto): string { p.referencia }
  function ParametroProdutoParent(p: ParametroProduto): Id { p.produtoId }
  function ProjetoParent(p: Projeto): Id { p.produtoId }
  function ProjetoKey(p: Projeto): string { p.numero }
  function AmostraParent(a: Amostra): Id { a.projetoId }
  function AmostraKey(a: Amostra): string { a.codigo }
  function MedicaoParent(m: Medicao): Id { m.amostraId }
  function ParametroMedicaoParent(p: ParametroMedicao): Id { p.medicaoId }
  function ParametroMedicaoKey(p: ParametroMedicao): string { p.nome }
}
