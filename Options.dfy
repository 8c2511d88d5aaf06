/** The argument normalisers of the options keywords (src/SudsLibrary/options.py):
    flat pair lists folded into maps, the authentication-type table, the
    services `set_location` targets, the location stored by
    `add_doctor_import`, and the backup of the `service` and `port` options. */
module Options {
  import opened SudsValues

  // ---------------------------------------------------------------------------
  // Flat name/value lists folded into a map (set_proxies, set_headers)
  // ---------------------------------------------------------------------------

  /** The map the source's `for i in range(0, len(args), 2)` loop builds: each
      pair is stored in turn, so a later pair overwrites an earlier one. */
  function PairMap<T(==)>(args: seq<T>): map<T, T>
    requires |args| % 2 == 0
    decreases |args|
  {
    if args == [] then map[]
    else PairMap(args[..|args| - 2])[args[|args| - 2] := args[|args| - 1]]
  }

  /** The arguments at even positions: the names of the pairs. */
  ghost function EvenPositioned<T>(args: seq<T>): set<T> {
    set i | 0 <= i < |args| && i % 2 == 0 :: args[i]
  }

  /** Every name can serve as a dictionary key. */
  predicate KeysHashable(args: seq<Arg>) {
    forall i :: 0 <= i < |args| && i % 2 == 0 ==> Hashable(args[i])
  }

  /** The keys of the folded map are exactly the names of the pairs. */
  lemma {:induction false} PairMapKeys<T>(args: seq<T>)
    requires |args| % 2 == 0
    ensures PairMap(args).Keys == EvenPositioned(args)
  {
    if args != [] {
      var n := |args|;
      var front := args[..n - 2];
      PairMapKeys(front);
      forall x | x in EvenPositioned(args) ensures x in EvenPositioned(front) + {args[n - 2]} {
        var i :| 0 <= i < n && i % 2 == 0 && args[i] == x;
        if i < n - 2 { assert front[i] == x; }
      }
      forall x | x in EvenPositioned(front) ensures x in EvenPositioned(args) {
        var i :| 0 <= i < |front| && i % 2 == 0 && front[i] == x;
        assert args[i] == x;
      }
    }
  }

  /** Later pairs win: a name maps to the value that follows its last occurrence. */
  lemma {:induction false} PairMapLastWins<T>(args: seq<T>, i: nat)
    requires |args| % 2 == 0 && i < |args| && i % 2 == 0
    requires forall j :: i < j < |args| && j % 2 == 0 ==> args[j] != args[i]
    ensures args[i] in PairMap(args) && PairMap(args)[args[i]] == args[i + 1]
  {
    var n := |args|;
    if i < n - 2 {
      var front := args[..n - 2];
      forall j | i < j < |front| && j % 2 == 0 ensures front[j] != front[i] {
        assert args[j] != args[i];
      }
      PairMapLastWins(front, i);
      assert args[n - 2] != args[i];
    }
  }

  /** The fold over an even-length list, failing on the first name Python cannot hash. */
  function PairsOf(args: seq<Arg>): Result<map<Arg, Arg>>
    requires |args| % 2 == 0
  {
    if KeysHashable(args) then Ok(PairMap(args)) else Err(TypeError)
  }

  /** The loop shared by `set_proxies` and `set_headers`. */
  method CollectPairs(args: seq<Arg>) returns (r: Result<map<Arg, Arg>>)
    requires |args| % 2 == 0
    ensures r == PairsOf(args)
  {
    var entries: map<Arg, Arg> := map[];
    var i := 0;
    while i < |args|
      invariant 0 <= i <= |args| && i % 2 == 0
      invariant KeysHashable(args[..i])
      invariant entries == PairMap(args[..i])
    {
      if !Hashable(args[i]) {
        assert !KeysHashable(args);
        return Err(TypeError);
      }
      assert args[..i + 2][..i] == args[..i];
      entries := entries[args[i] := args[i + 1]];
      i := i + 2;
      assert KeysHashable(args[..i]) by {
        forall j | 0 <= j < i && j % 2 == 0 ensures Hashable(args[..i][j]) {
          if j < i - 2 { assert args[..i - 2][j] == args[..i][j]; }
        }
      }
    }
    assert args[..i] == args;
    r := Ok(entries);
  }

  const ProxiesOddMessage := "There should be an even number of protocol-url pairs."
  const HeadersOddMessage := "There should be an even number of name-value pairs."

  /** The `proxy` map `set_proxies` computes from its protocol/URL list. */
  function Proxies(args: seq<Arg>): (r: Result<map<Arg, Arg>>)
    ensures r.Ok? <==> |args| % 2 == 0 && KeysHashable(args)
    ensures |args| % 2 != 0 ==> r == Err(ValueError(ProxiesOddMessage))
    ensures r.Ok? ==> r.value.Keys == EvenPositioned(args)
    ensures r.Ok? ==> |args| % 2 == 0 && r.value == PairMap(args)
    ensures |args| % 2 == 0 && !KeysHashable(args) ==> r == Err(TypeError)
  {
    if |args| % 2 != 0 then Err(ValueError(ProxiesOddMessage))
    else
      PairMapKeys(args);
      PairsOf(args)
  }

  /** The `headers` value `set_headers` computes: one argument passes through
      unchanged, an even-length list folds as for proxies, any other odd length fails. */
  function Headers(args: seq<Arg>): (r: Result<OptionValue>)
    ensures |args| == 1 ==> r == Ok(Given(args[0]))
    ensures |args| == 0 ==> r == Ok(PairTable(map[]))
    ensures |args| != 1 && |args| % 2 != 0 ==> r == Err(ValueError(HeadersOddMessage))
    ensures |args| % 2 == 0 ==> (r.Ok? <==> Proxies(args).Ok?)
    ensures |args| % 2 == 0 && r.Ok? ==> r.value == PairTable(Proxies(args).value)
    ensures |args| % 2 == 0 && r.Err? ==> Proxies(args).Err? && r.error == Proxies(args).error
  {
    if |args| == 1 then Ok(Given(args[0]))
    else if |args| % 2 == 0 then
      match PairsOf(args)
      case Ok(entries) => Ok(PairTable(entries))
      case Err(e) => Err(e)
    else Err(ValueError(HeadersOddMessage))
  }

  // ---------------------------------------------------------------------------
  // Authentication type (set_http_authentication)
  // ---------------------------------------------------------------------------

  /** `str.upper()` on one character, for the ASCII letters. */
  function UpperChar(c: char): char {
    if 'a' <= c <= 'z' then (c as int - 32) as char else c
  }

  function Upper(s: string): string {
    seq(|s|, i requires 0 <= i < |s| => UpperChar(s[i]))
  }

  /** The key under which each transport class sits in the source's table. */
  function TypeName(t: AuthType): string {
    match t
    case Standard => "STANDARD"
    case AlwaysSend => "ALWAYS_SEND"
    case Ntlm => "NTLM"
  }

  function TransportTable(): map<string, AuthType> {
    map["STANDARD" := Standard, "ALWAYS_SEND" := AlwaysSend, "NTLM" := Ntlm]
  }

  /** Two characters that are equal once the case of an ASCII letter is ignored. */
  predicate SameIgnoringCase(c: char, d: char) {
    c == d
    || ('a' <= c <= 'z' && d as int == c as int - 32)
    || ('a' <= d <= 'z' && c as int == d as int - 32)
  }

  predicate EqualsIgnoringCase(a: string, b: string) {
    |a| == |b| && forall i :: 0 <= i < |a| ==> SameIgnoringCase(a[i], b[i])
  }

  const UnsupportedPrefix := "'"
  const UnsupportedSuffix := "' is not a supported type."

  /** Looks `type.upper()` up in the table; the error names the type as given. */
  function AuthTypeOf(authType: string): (r: Result<AuthType>)
    ensures r.Ok? ==> Upper(authType) == TypeName(r.value)
    ensures r.Err? ==> r.error == ValueError(UnsupportedPrefix + authType + UnsupportedSuffix)
  {
    var key := Upper(authType);
    if key in TransportTable() then Ok(TransportTable()[key])
    else Err(ValueError(UnsupportedPrefix + authType + UnsupportedSuffix))
  }

  lemma UpperMatchesName(s: string, t: AuthType)
    ensures Upper(s) == TypeName(t) <==> EqualsIgnoringCase(s, TypeName(t))
  {
    var name := TypeName(t);
    if Upper(s) == name {
      forall i | 0 <= i < |s| ensures SameIgnoringCase(s[i], name[i]) {
        assert UpperChar(s[i]) == name[i];
      }
    }
    if EqualsIgnoringCase(s, name) {
      forall i | 0 <= i < |s| ensures Upper(s)[i] == name[i] {
        assert SameIgnoringCase(s[i], name[i]);
        assert !('a' <= name[i] <= 'z');
      }
    }
  }

  /** The type is accepted exactly when it spells one of the table's keys in any
      case, and then it selects that key's transport. */
  lemma AuthTypeIgnoresCase(authType: string, t: AuthType)
    ensures AuthTypeOf(authType) == Ok(t) <==> EqualsIgnoringCase(authType, TypeName(t))
  {
    UpperMatchesName(authType, t);
  }

  /** Every type that no key spells is refused. */
  lemma AuthTypeRefusesOthers(authType: string)
    requires forall t: AuthType :: !EqualsIgnoringCase(authType, TypeName(t))
    ensures AuthTypeOf(authType) == Err(ValueError(UnsupportedPrefix + authType + UnsupportedSuffix))
  {
    if AuthTypeOf(authType).Ok? {
      AuthTypeIgnoresCase(authType, AuthTypeOf(authType).value);
    }
  }

  // ---------------------------------------------------------------------------
  // Which services set_location updates
  // ---------------------------------------------------------------------------

  function AllServices(count: nat): (r: seq<nat>) {
    seq(count, (i: nat) => i)
  }

  /** The services whose location `set_location` changes, in the order it visits them. */
  function LocationTargets(count: nat, serviceIndex: int): (r: Result<seq<nat>>)
    ensures r.Err? <==> count != 1 && serviceIndex >= count
    ensures r.Err? ==> r.error == IndexError
    ensures r.Ok? ==> forall k :: 0 <= k < |r.value| ==> r.value[k] < count
  {
    var index := if count == 1 then 0 else serviceIndex;
    if index < 0 then Ok(AllServices(count))
    else if index < count then Ok([index as nat])
    else Err(IndexError)
  }

  /** A service is targeted iff it exists and either it is the only one, or the
      index is negative, or it is the indexed one; none is targeted twice. */
  lemma LocationTargetsExactly(count: nat, serviceIndex: int, s: nat)
    requires LocationTargets(count, serviceIndex).Ok?
    ensures s in LocationTargets(count, serviceIndex).value
            <==> s < count && (count == 1 || serviceIndex < 0 || s == serviceIndex)
    ensures var t := LocationTargets(count, serviceIndex).value;
            forall j, k :: 0 <= j < k < |t| ==> t[j] != t[k]
  {
    if count != 1 && serviceIndex < 0 && s < count {
      assert AllServices(count)[s] == s;
    }
  }

  /** `names if names else None`: no names means every method. */
  function LocationNames(names: seq<string>): (r: Option<seq<string>>)
    ensures r.None? <==> names == []
    ensures r.Some? ==> r.value == names
  {
    if names == [] then None else Some(names)
  }

  /** The calls `set_location` records, one per targeted service. */
  function LocationCalls(targets: seq<nat>, url: string, names: Option<seq<string>>): seq<LocationCall> {
    seq(|targets|, k requires 0 <= k < |targets| => LocationCall(targets[k], url, names))
  }

  // ---------------------------------------------------------------------------
  // add_doctor_import
  // ---------------------------------------------------------------------------

  /** `location if location else None`: a missing or empty location is stored as None. */
  function StoredLocation(location: Option<string>): (r: Option<string>)
    ensures r.None? <==> location == None || location == Some("")
    ensures r.Some? ==> r == location
  {
    match location
    case None => None
    case Some(l) => if l == "" then None else Some(l)
  }

  // ---------------------------------------------------------------------------
  // _backup_options / _restore_options
  // ---------------------------------------------------------------------------

  const BackedUpNames: set<string> := {"service", "port"}

  /** `getattr(options, name)`: an option never set reads as its default, None. */
  function Lookup(options: map<string, OptionValue>, name: string): OptionValue {
    if name in options then options[name] else NoValue
  }

  /** The record `_backup_options` saves. */
  function Backup(options: map<string, OptionValue>): (saved: map<string, OptionValue>)
    ensures saved.Keys == BackedUpNames
    ensures forall n :: n in saved ==> saved[n] == Lookup(options, n)
  {
    map n | n in BackedUpNames :: Lookup(options, n)
  }

  /** `set_options(**saved)`: the saved entries replace the current ones. */
  function Restore(options: map<string, OptionValue>, saved: map<string, OptionValue>): map<string, OptionValue> {
    options + saved
  }

  /** Restoring a backup brings `service` and `port` back to the values they had
      at backup time, whatever happened in between, and touches no other option. */
  lemma RestoreAfterBackup(before: map<string, OptionValue>, between: map<string, OptionValue>, name: string)
    ensures name in BackedUpNames ==> Lookup(Restore(between, Backup(before)), name) == Lookup(before, name)
    ensures name !in BackedUpNames ==> Lookup(Restore(between, Backup(before)), name) == Lookup(between, name)
  {
  }
}
