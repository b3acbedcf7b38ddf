/** The prompt handed to the browser agent: a fixed Spanish template with the
    portal URL, the identifier field name and the identifier filled in, then
    stripped of surrounding whitespace. */
module PromptGenerator {
  import opened Basics
  import opened Text
  import opened Records

  // The template, cut at every substitution point and at the two literals
  // the agent's answer format relies on. `Indent` is the newline-plus-four-spaces
  // that opens and closes the triple-quoted literal.
  const Indent: string := "\n    "
  const Opening: string := "Ve a la página "
  const Steps: string := "\n\n    Sigue estos pasos:\n    1. Busca el campo de entrada para el "
  const NumberStep: string := "\n    2. Ingresa el número: "
  const Instructions: string :=
    "\n    3. Haz clic en el botón de consulta/búsqueda (puede decir \"Continuar\", \"Consultar\", \"Buscar\", etc.)"
    + "\n    4. Espera a que cargue la información"
    + "\n    5. Extrae el monto de la deuda que aparece en la página"
    + "\n    6. Si hay múltiples deudas, suma el total"
    + "\n    7. Si no hay deuda, devuelve 0"
    + "\n    8. Devuelve SOLO el monto de la deuda en formato: "
  const DeudaFormat: string := "{\"deuda\": float}"
  const Notes: string :=
    "\n\n    IMPORTANTE:"
    + "\n    - El monto debe ser un número (sin símbolos de moneda)"
    + "\n    - Si el monto tiene punto como separador de miles (ej: 4.713), conviértelo correctamente (4713)"
    + "\n    - Si el monto tiene coma decimal (ej: 4.713,50), conviértelo a punto decimal "
  const Closing: string := "(4713.5)"

  /** The template text between the page instruction and the closing decimal example. */
  function Middle(url: string, identificador: string, campoIdentificador: string): string
  {
    url + Steps + campoIdentificador + NumberStep + identificador + Instructions + DeudaFormat + Notes
  }

  /** The template text between the opening and closing indentation. */
  function Body(url: string, identificador: string, campoIdentificador: string): string
  {
    Opening + Middle(url, identificador, campoIdentificador) + Closing
  }

  /** The value of the formatted literal before `.strip()`. */
  function Template(url: string, identificador: string, campoIdentificador: string): string
  {
    Indent + Body(url, identificador, campoIdentificador) + Indent
  }

  /** `generate_prompt`: the template with the three values substituted,
      without the indentation that opens and closes the literal. */
  function GeneratePrompt(url: string, identificador: string, campoIdentificador: string): string
  {
    Body(url, identificador, campoIdentificador)
  }

  /** What `generate_prompt` returns is the formatted literal passed through
      `.strip()`: stripping removes exactly the opening and closing indentation,
      whatever the substituted values are (they sit strictly inside the text). */
  lemma GeneratePromptStripsTemplate(url: string, identificador: string, campoIdentificador: string)
    ensures GeneratePrompt(url, identificador, campoIdentificador) == Strip(Template(url, identificador, campoIdentificador))
  {
    var body := Body(url, identificador, campoIdentificador);
    assert AllSpace(Indent);
    assert body[0] == 'V';
    assert body[|body| - 1] == ')';
    StripPadded(Indent, body, Indent);
  }

  /** The prompt opens with the page instruction, closes with the decimal
      example, and holds each argument and the answer format verbatim. */
  lemma GeneratePromptShape(url: string, identificador: string, campoIdentificador: string)
    ensures var r := GeneratePrompt(url, identificador, campoIdentificador);
      && StartsWith(r, Opening) && EndsWith(r, Closing)
      && Contains(r, url) && Contains(r, campoIdentificador) && Contains(r, identificador)
      && Contains(r, DeudaFormat)
  {
    var m := Middle(url, identificador, campoIdentificador);
    FramedBy(Opening, m, Closing);
    ContainsEvenPieces(url, Steps, campoIdentificador, NumberStep, identificador, Instructions, DeudaFormat, Notes);
    ContainsInBody(Opening, m, Closing, url);
    ContainsInBody(Opening, m, Closing, campoIdentificador);
    ContainsInBody(Opening, m, Closing, identificador);
    ContainsInBody(Opening, m, Closing, DeudaFormat);
  }

  lemma ContainsInBody(a: string, m: string, b: string, sub: string)
    requires Contains(m, sub)
    ensures Contains(a + m + b, sub)
  {
    ContainsPrepend(a, m, sub);
    ContainsAppend(a + m, sub, b);
  }

  /** The pieces at even positions of an eight-piece concatenation occur in it. */
  lemma ContainsEvenPieces(x0: string, x1: string, x2: string, x3: string,
                           x4: string, x5: string, x6: string, x7: string)
    ensures var s := x0 + x1 + x2 + x3 + x4 + x5 + x6 + x7;
      Contains(s, x0) && Contains(s, x2) && Contains(s, x4) && Contains(s, x6)
  {
    ContainsSelf(x0);
    ContainsAllAppend(x0, [x0], x1);
    ContainsGrow(x0 + x1, [x0], x2);
    ContainsAllAppend(x0 + x1 + x2, [x0, x2], x3);
    ContainsGrow(x0 + x1 + x2 + x3, [x0, x2], x4);
    ContainsAllAppend(x0 + x1 + x2 + x3 + x4, [x0, x2, x4], x5);
    ContainsGrow(x0 + x1 + x2 + x3 + x4 + x5, [x0, x2, x4], x6);
    ContainsAllAppend(x0 + x1 + x2 + x3 + x4 + x5 + x6, [x0, x2, x4, x6], x7);
    var all := [x0, x2, x4, x6];
    assert all[0] == x0 && all[1] == x2 && all[2] == x4 && all[3] == x6;
  }

  /** The text of the AttributeError raised by `.get` on a value of kind `k`. */
  function NoGetMessage(k: JsonKind): string
  {
    "'" + PyTypeName(k) + "' object has no attribute 'get'"
  }

  /** The identifier read with `servicio.get("credenciales", {}).get("identificador", "")`:
      a missing key at either level gives the empty string; a `credenciales`
      holding JSON that is not an object makes the second `.get` raise. */
  function Identificador(c: Credenciales): (r: Result<string>)
    ensures r.Err? <==> c.NotAnObject?
    ensures r.Err? ==> r.message == NoGetMessage(c.kind)
    ensures c.Credenciales? && "identificador" in c.fields ==> r == Ok(c.fields["identificador"])
    ensures c.NoCredenciales? || (c.Credenciales? && "identificador" !in c.fields) ==> r == Ok("")
  {
    match c
    case NoCredenciales => Ok("")
    case NotAnObject(kind) => Err(NoGetMessage(kind))
    case Credenciales(fields) =>
      Ok(if "identificador" in fields then fields["identificador"] else "")
  }

  /** `generate_prompt_from_servicio`: the company's portal URL and field name
      are passed through unchanged, and the identifier is the service's stored
      credential (empty when absent). */
  function GeneratePromptFromServicio(servicio: Servicio, empresa: EmpresaInfo): (r: Result<string>)
    ensures r.Err? <==> servicio.credenciales.NotAnObject?
    ensures r.Err? ==> r.message == NoGetMessage(servicio.credenciales.kind)
    ensures servicio.credenciales.Credenciales? && "identificador" in servicio.credenciales.fields ==>
      r == Ok(GeneratePrompt(empresa.urlServipag, servicio.credenciales.fields["identificador"], empresa.campoIdentificador))
    ensures servicio.credenciales.Credenciales? && "identificador" !in servicio.credenciales.fields ==>
      r == Ok(GeneratePrompt(empresa.urlServipag, "", empresa.campoIdentificador))
    ensures servicio.credenciales.NoCredenciales? ==>
      r == Ok(GeneratePrompt(empresa.urlServipag, "", empresa.campoIdentificador))
  {
    match Identificador(servicio.credenciales)
    case Err(e) => Err(e)
    case Ok(identificador) =>
      Ok(GeneratePrompt(empresa.urlServipag, identificador, empresa.campoIdentificador))
  }

  /** Every prompt built from a service is a full prompt for its company's
      page: it opens and closes with the template's fixed text and holds the
      portal URL, the field name, the answer format and the service's stored
      identifier. Only a `credenciales` that is not an object yields none. */
  lemma GeneratePromptFromServicioShape(servicio: Servicio, empresa: EmpresaInfo)
    ensures var r := GeneratePromptFromServicio(servicio, empresa);
      && (r.Ok? <==> !servicio.credenciales.NotAnObject?)
      && (r.Ok? ==>
            && StartsWith(r.value, Opening) && EndsWith(r.value, Closing)
            && Contains(r.value, empresa.urlServipag) && Contains(r.value, empresa.campoIdentificador)
            && Contains(r.value, DeudaFormat))
      && (servicio.credenciales.Credenciales? && "identificador" in servicio.credenciales.fields ==>
            r.Ok? && Contains(r.value, servicio.credenciales.fields["identificador"]))
  {
    var r := GeneratePromptFromServicio(servicio, empresa);
    if r.Ok? {
      var identificador := Identificador(servicio.credenciales).value;
      assert r.value == GeneratePrompt(empresa.urlServipag, identificador, empresa.campoIdentificador);
      GeneratePromptShape(empresa.urlServipag, identificador, empresa.campoIdentificador);
    }
  }
}
