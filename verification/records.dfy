/** Rows read from the database, reduced to the columns the core uses.
    Table 'servicios' gives `Servicio`; table 'empresas_servicio' gives `EmpresaInfo`. */
module Records {

  /** The kinds of JSON value other than an object, as `json` decodes them. */
  datatype JsonKind = JsonNull | JsonText | JsonArray | JsonInteger | JsonFloat | JsonBoolean

  /** The name of the Python type a JSON value of kind `k` decodes to. */
  function PyTypeName(k: JsonKind): string
  {
    match k
    case JsonNull => "NoneType"
    case JsonText => "str"
    case JsonArray => "list"
    case JsonInteger => "int"
    case JsonFloat => "float"
    case JsonBoolean => "bool"
  }

  /** The `credenciales` column of a service row as seen through
      `servicio.get("credenciales", {})`: the key may be missing, hold a
      JSON value that is not an object (null, a string, a list, a number,
      a boolean), or hold an object of text fields. */
  datatype Credenciales =
    | NoCredenciales
    | NotAnObject(kind: JsonKind)
    | Credenciales(fields: map<string, string>)

  datatype Servicio = Servicio(
    servicioId: int,
    propiedadId: int,
    tipoServicio: string,
    compania: string,
    credenciales: Credenciales)

  datatype EmpresaInfo = EmpresaInfo(urlServipag: string, campoIdentificador: string)
}
