/** Values shared by the keyword layer: the errors a keyword can raise, the
    arguments a test case passes, and the option values that end up on a
    suds client. */
module SudsValues {

  /** The exceptions the keywords raise, with the messages the source gives them. */
  datatype Error =
    | ValueError(message: string)   // malformed argument list, unsupported auth type
    | TypeError                     // an unhashable value (a dictionary, a list) used as a key
    | IOError(message: string)      // local WSDL file missing
    | IndexError                    // service index past the end of `wsdl.services`
    | NoClient                      // no client registered, so the cache has no current one
    | LookupFailed                  // the cache could not resolve an index or alias
    | NoBackup                      // `_restore_options` before any `_backup_options`

  datatype Result<T> = Ok(value: T) | Err(error: Error)

  /** Result of a keyword that returns nothing. */
  datatype Outcome = Done | Failed(error: Error)

  datatype Option<T> = None | Some(value: T)

  /** A keyword argument as the test runner delivers it: a string, a dictionary
      (built, say, with `Create Dictionary`), or any other Python value (a number,
      None, a list, a suds object such as a WSDL object), known by an identity and
      by whether Python can hash it. */
  datatype Arg =
    | Text(text: string)
    | Dict(entries: map<string, string>)
    | Other(id: nat, hashable: bool)

  /** Python's hashability, which decides whether an argument can be a dict key:
      strings can, dictionaries cannot, any other value as it says. */
  predicate Hashable(a: Arg) {
    match a
    case Text(_) => true
    case Dict(_) => false
    case Other(_, hashable) => hashable
  }

  /** The three transport classes of the authentication table. */
  datatype AuthType = Standard | AlwaysSend | Ntlm

  /** One staged `suds.xsd.doctor.Import`: namespace, location (None when not
      given) and the namespaces of its `TnsFilter`, in the order they were added. */
  datatype Import = Import(ns: string, location: Option<string>, filters: seq<string>)

  /** A service or port selector, as `parse_index` returns it. */
  datatype Selector = ByIndex(index: int) | ByName(name: string)

  /** A value stored in a suds client's options. */
  datatype OptionValue =
    | NoValue                                   // Python None, also the default of `service` and `port`
    | Flag(flag: bool)                          // faults, retxml, autoblend
    | Chosen(selector: Selector)                // service, port
    | Given(arg: Arg)                           // a headers argument passed through as it came
    | PairTable(entries: map<Arg, Arg>)         // proxy, headers built from name/value pairs
    | SoapHeaders(headers: seq<Arg>)            // soapheaders
    | Transport(kind: AuthType, username: string, password: string)
    | Doctor(imports: seq<Import>)              // an ImportDoctor over the staged imports

  /** One recorded `svc.setlocation(url, names)` call on the service at `service`;
      `names == None` means every method of that service. */
  datatype LocationCall = LocationCall(service: nat, url: string, names: Option<seq<string>>)
}
