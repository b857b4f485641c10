/** The entities of the item API and the response envelopes its handlers
    return. Every handler answers with an HTTP status and a JSON envelope. */
module Api {
  import opened JsValues

  /** A stored item. `name` and `category` keep whatever JSON value the
      request carried (the create handler does not check their types);
      `price` is the result of parseFloat and may be NaN. The timestamps
      are absent until a create or an update stamps them. */
  datatype Item = Item(
    id: int,
    name: JsValue,
    price: Number,
    category: JsValue,
    createdAt: Option<string>,
    updatedAt: Option<string>)

  /** The fields of a create or update request body. */
  datatype Body = Body(name: JsValue, price: JsValue, category: JsValue)

  /** A record of the external aggregator: a reshaped third-party post. */
  datatype ExternalRecord = ExternalRecord(id: int, title: string, content: string, source: string)

  /** The JSON envelope: `{success: false, error}` or `{success: true, data, ...}`. */
  datatype Envelope =
    | Failure(error: string)
    | ItemList(data: seq<Item>, total: int, message: string)
    | SingleItem(item: Item, message: string)
    | ExternalList(records: seq<ExternalRecord>, message: string)
  {
    predicate Success() {
      !Failure?
    }
  }

  datatype Response = Response(status: int, body: Envelope)

  const MissingFieldsError := "Faltan campos requeridos: name, price, category"
  const InvalidTypesError := "Tipos de datos inválidos para name, price o category"
  const NotFoundError := "Elemento no encontrado"
  const ExternalError := "Error al obtener datos externos"
  const InternalError := "Error interno del servidor"

  const ListedMessage := "Datos obtenidos exitosamente"
  const CreatedMessage := "Elemento creado exitosamente"
  const UpdatedMessage := "Elemento actualizado exitosamente"
  const DeletedMessage := "Elemento eliminado exitosamente"
  const ExternalMessage := "Datos externos obtenidos exitosamente"

  /** The three items the store holds when the server starts. */
  const InitialItems: seq<Item> := [
    Item(1, Str("Producto 1"), Finite(100), Str("electronics"), None, None),
    Item(2, Str("Producto 2"), Finite(200), Str("clothing"), None, None),
    Item(3, Str("Producto 3"), Finite(150), Str("books"), None, None)
  ]
}
