# SudsLibrary keyword layer, modelled in Dafny

SudsLibrary is a Robot Framework keyword library over the `suds` SOAP client.
This project models the library's own logic, which has two parts:

- **Options keywords** (`_OptionsKeywords`). These normalise test-case arguments and write the result into the current client's options:
  - flat protocol/URL or name/value lists are folded into maps;
  - the authentication-type table is looked up case-insensitively;
  - `set_location` chooses which services get a new location;
  - a staging list holds doctor imports for the next client;
  - `service` and `port` can be backed up and restored.
- **Client-management keywords** (`_ClientManagementKeywords`):
  - a WSDL argument is turned into a URL;
  - a client is built with an import doctor when imports are staged;
  - the per-client bookkeeping covers the listener plugin, `faults=True`, the logging flag and the empty staging list;
  - `switch_client` copies the stored logging flag back into the listener;
  - the imports log message is built line by line.

Modules:

- `SudsValues`: the errors a keyword raises, the arguments it receives and the option values it stores.
- `Options`: the pure normalisers of `options.py`, with `CollectPairs`, the loop that folds a pair list into a map.
- `ClientManagement`: the pure decisions of `clientmanagement.py`:
  - `_get_url`;
  - the construction options;
  - the text of the import log.
- `Library`: the stateful part.
  - `SudsClient` stands for a suds client. It keeps an options map, which `set_options` updates by union. It also keeps the plugin list and a record of `setlocation` calls on its services.
  - `Listener` is the logging plugin.
  - `SudsLibrary` holds `self`'s state: `_imports`, `_logging_option`, `_old_options`, the logger's messages, and the connection cache reduced to a list of registrations plus a current client. Its methods are the keywords of both helper classes.

Every keyword that ends in `self._client().set_options(...)` fails with `NoClient` when no client exists, and then leaves every client unchanged. Argument validation comes first, as in the code:
- an odd pair list fails before the client is looked up;
- so does an unknown authentication type.

Errors are the exceptions the code raises: `ValueError`, `IOError` and `IndexError`. A dictionary, a list or another unhashable value given as a pair's name makes Python raise `TypeError`; the model keeps this case.

The keywords keep the source's default arguments: `alias=None` and `autoblend=False` for `create_client`, `type='STANDARD'` for `set_http_authentication`, `service_index=-1` (every service) and no method names for `set_location`, and `location=None` and no filters for `add_doctor_import`. `CreateClient` takes the WSDL before `alias`, because a defaulted parameter cannot precede a plain one.

## Model

| member | source | states |
|---|---|---|
| `Options.PairMapKeys` | src/SudsLibrary/options.py:48-50 | the folded map's keys are exactly the arguments at even positions |
| `Options.PairMapLastWins` | src/SudsLibrary/options.py:49-50 | a name maps to the argument following its last occurrence, so later pairs overwrite earlier ones |
| `Options.CollectPairs` | src/SudsLibrary/options.py:48-50 | the `range(0, len, 2)` loop builds the pair map, or fails with TypeError at a name Python cannot hash |
| `Options.Proxies` | src/SudsLibrary/options.py:46-50 | an odd count is a ValueError with the source's message; success exactly for even lists whose names are hashable, and then the value is the pair map, keyed by the even-position arguments; an unhashable name in an even list is a TypeError |
| `Options.Headers` | src/SudsLibrary/options.py:61-69 | one argument passes through unchanged; no arguments give an empty map; an even count gives the same map, or the same failure, as `set_proxies`; any other odd count is a ValueError |
| `Options.AuthTypeOf` | src/SudsLibrary/options.py:106-114 | success means the upper-cased type is the chosen transport's key; an error carries the "'<type>' is not a supported type." message |
| `Options.AuthTypeIgnoresCase` | src/SudsLibrary/options.py:106-112 | a type selects a transport iff it spells that transport's key up to letter case |
| `Options.AuthTypeRefusesOthers` | src/SudsLibrary/options.py:111-114 | a type that spells no key, in any case, is a ValueError |
| `Options.LocationTargets` | src/SudsLibrary/options.py:128-135 | an IndexError exactly when there is not one single service and the index is at or past the end; every target is an existing service |
| `Options.LocationTargetsExactly` | src/SudsLibrary/options.py:129-135 | a service is updated iff it exists and it is the only service, or the index is negative, or it is the indexed one; none is updated twice |
| `Options.LocationNames` | src/SudsLibrary/options.py:130 | no method names become None, meaning all methods; otherwise the names are kept |
| `Options.StoredLocation` | src/SudsLibrary/options.py:149 | a missing or empty location is stored as None; any other location is stored as given |
| `Options.Backup` | src/SudsLibrary/options.py:172-174 | the saved record holds exactly `service` and `port`, each with its current value or its default None |
| `Options.RestoreAfterBackup` | src/SudsLibrary/options.py:172-177 | restoring gives `service` and `port` their values at backup time, whatever happened in between, and leaves other options as they are |
| `ClientManagement.GetUrl` | src/SudsLibrary/clientmanagement.py:105-110 | a scheme longer than one character returns the input; otherwise a missing file is the IOError "File '<arg>' not found.", and an existing file gives `file:` followed by the converted path |
| `ClientManagement.GetUrlIdempotent` | src/SudsLibrary/clientmanagement.py:105-110 | a resolved URL resolves to itself, given that the built `file:` URL parses with scheme "file" |
| `ClientManagement.ConstructionOptions` | src/SudsLibrary/clientmanagement.py:43-48 | `autoblend` is always passed; `doctor` is added iff imports are staged, and it is built from exactly those imports |
| `ClientManagement.LogLinesCount` | src/SudsLibrary/clientmanagement.py:98-102 | the message has one line per import plus one per filter namespace |
| `ClientManagement.LogLinesAt` | src/SudsLibrary/clientmanagement.py:99-102 | in order: each import's Namespace/Location line is followed by one Filtering line per filter namespace of that import |
| `Library.SudsLibrary.CreateClient` | src/SudsLibrary/clientmanagement.py:26-50 | an IOError from `_get_url` changes nothing; otherwise a fresh client with the resolved URL, built with `autoblend` and a doctor iff imports were staged, becomes current, with listener, `faults=True` and logging on; the imports message, when there is one, is logged first |
| `Library.SudsLibrary.SwitchClient` | src/SudsLibrary/clientmanagement.py:52-75 | when the cache finds the client, it becomes current and `listener.log` is its stored logging flag; a failed lookup changes nothing |
| `Library.SudsLibrary.AddClient` | src/SudsLibrary/clientmanagement.py:83-92 | listener appended after the earlier plugins; `faults=True` with the other options kept; the WSDL message logged; `_imports` empty; the client's logging flag True with the other clients' flags unchanged; the client registered and current |
| `Library.SudsLibrary.LogImports` | src/SudsLibrary/clientmanagement.py:96-103 | nothing is logged when no import is staged; otherwise exactly the header and the lines of `LogLines`, each after a newline |
| `Library.SudsLibrary.ApplyOptions` | src/SudsLibrary/clientmanagement.py:79-81 | the current client's options are updated by the given ones, and nothing else of it changes; with no client it is a NoClient failure |
| `Library.SudsLibrary.SetService` | src/SudsLibrary/options.py:25-31 | `service` is set to the parsed selector, and no other option changes |
| `Library.SudsLibrary.SetPort` | src/SudsLibrary/options.py:33-39 | `port` is set to the parsed selector, and no other option changes |
| `Library.SudsLibrary.SetProxies` | src/SudsLibrary/options.py:41-51 | a malformed list fails before any option is set; otherwise `proxy` becomes the pair map |
| `Library.SudsLibrary.SetHeaders` | src/SudsLibrary/options.py:53-70 | a malformed list fails before any option is set; otherwise `headers` becomes the passed-through argument or the pair map |
| `Library.SudsLibrary.SetSoapHeaders` | src/SudsLibrary/options.py:72-83 | `soapheaders` is set to the given headers unchanged |
| `Library.SudsLibrary.SetReturnXml` | src/SudsLibrary/options.py:85-94 | `retxml` is set to the converted flag through `_set_boolean_option` |
| `Library.SudsLibrary.SetHttpAuthentication` | src/SudsLibrary/options.py:96-116 | an unsupported type fails before the client is touched; otherwise `transport` is the selected class with the given credentials |
| `Library.SudsLibrary.SetLocation` | src/SudsLibrary/options.py:118-135 | `setlocation` is called, in order, on exactly the targeted services with the URL and the names (or None); an out-of-range index is an IndexError with no call made; options and plugins are unchanged |
| `Library.SudsLibrary.AddDoctorImport` | src/SudsLibrary/options.py:137-153 | exactly one import is appended, earlier entries are kept, and it holds the namespace, the stored location and every filter in order |
| `Library.SudsLibrary.BackupOptions` | src/SudsLibrary/options.py:172-174 | `_old_options` becomes the backup of the current client's options |
| `Library.SudsLibrary.RestoreOptions` | src/SudsLibrary/options.py:176-177 | the saved record is set back on the current client; it fails with NoClient when there is no client, and with NoBackup (Python's AttributeError) when there was no backup |

## Left out

- Connection cache: the cache behind `register`, `switch` and `current` is not part of this model. `register` is modelled as appending a registration and making its client current. What `switch` finds is a parameter of `SwitchClient`. The index that `create_client` and `_add_client` return, and the index and alias rules, are not modelled.
- `to_bool` and `parse_index` are not part of this model. `SetService`, `SetPort`, `SetReturnXml` and `CreateClient` take their already converted results, so the errors these functions raise are not modelled.
- `Library.SudsLibrary.SetLocation` takes the service index as an integer. The `int(...)` conversion of a string argument, and the ValueError it can raise, are not modelled.
- `Options.AuthTypeOf`: only ASCII letters are upper-cased. Python 2's `unicode.upper` also maps a few other characters onto these letters, for example U+017F (long s) to `S`. The source accepts such spellings and the model rejects them.
- `bind_schema_to_location` is not modelled. It is a global mutation inside suds and has no logic of its own here.
- suds internals are outside the model:
  - Building the client. A WSDL that cannot be read or parsed is not modelled as a failure. The number of services and the text of `str(client)` come from the `Wsdl` parameter.
  - The transport classes, `ImportDoctor` and `Import`/`TnsFilter`. These become the values `Transport`, `Doctor` and `Import`.
  - What `setlocation` does to a service. It is only recorded as a call.
  - The type checking suds applies in `set_options`.
- `urlparse`, `os.path.isfile` and `urllib.pathname2url` are left uninterpreted. They are the fields of `Host`, and whether their percent-encoding is correct is not modelled.
- `SudsValues.Arg`: values other than strings and dictionaries are `Other`, known only by an identity and by whether Python can hash them. Python's equality between distinct values, such as `1 == True == 1.0`, is not modelled, so two such names that Python would treat as one key stay two keys in the pair map.
- `Library.SudsClient.options` is one flat map. In suds, `proxy` and `headers` are options of the transport object, linked into the client's options, so a new transport from `set_http_authentication` brings fresh `proxy` and `headers`; the model keeps the earlier ones.
- Logger output is the list of messages the logger receives. The listener's logging of SOAP traffic is I/O and is not modelled.
- NTLM: the model does not capture that `WindowsHttpAuthenticated` needs the optional python-ntlm package.
- Construction: the library's `__init__` is not part of this model. `SudsLibrary` starts with no clients, no staged imports and no backup, and it is given its listener.
