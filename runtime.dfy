/** Values and failure shapes shared by every handler: optional values,
    results, injected faults, and the messages the JavaScript engine and
    Node.js produce for the runtime errors the handlers can hit. */
module Runtime {

  datatype Option<T> = None | Some(value: T)

  datatype Result<T> = Ok(value: T) | Err(message: string)

  /** The outcome of one external call: `None` when it succeeds,
      `Some(m)` when it throws (or rejects) an error whose message is `m`. */
  type Fault = Option<string>

  /** `os.tmpdir()` on the function host. */
  const TmpDir: string := "/tmp"

  /** `path.join(os.tmpdir(), name)` for a plain file name. */
  function TmpPath(name: string): string
  {
    TmpDir + "/" + name
  }

  /** Message of the TypeError raised when reading property `p` of `null`. */
  function NullProperty(p: string): string
  {
    "Cannot read properties of null (reading '" + p + "')"
  }

  /** Message of the TypeError raised when reading property `p` of `undefined`. */
  function UndefinedProperty(p: string): string
  {
    "Cannot read properties of undefined (reading '" + p + "')"
  }

  /** Message of the SyntaxError raised when a stored payload is not JSON. */
  const NotJson: string := "Unexpected token in JSON"

  /** A template literal interpolates a missing property as "undefined". */
  function FieldText(fields: map<string, string>, name: string): string
  {
    if name in fields then fields[name] else "undefined"
  }
}
