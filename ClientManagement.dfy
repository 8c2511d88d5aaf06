/** The decisions of the client-management keywords
    (src/SudsLibrary/clientmanagement.py): how a WSDL argument becomes a URL,
    which construction options a new client gets, and the text `_log_imports`
    writes. */
module ClientManagement {
  import opened SudsValues

  // ---------------------------------------------------------------------------
  // _get_url
  // ---------------------------------------------------------------------------

  /** What `_get_url` asks of its surroundings, left uninterpreted: the scheme
      `urlparse` finds, whether `os.path.isfile` holds, and `urllib.pathname2url`. */
  datatype Host = Host(scheme: string -> string, isFile: string -> bool, pathToUrl: string -> string)

  const FileScheme := "file:"

  /** A URL passes through; a path to an existing file becomes a `file:` URL;
      anything else is an IOError naming the argument. */
  function GetUrl(host: Host, urlOrPath: string): (r: Result<string>)
    ensures |host.scheme(urlOrPath)| > 1 ==> r == Ok(urlOrPath)
    ensures r.Err? <==> |host.scheme(urlOrPath)| <= 1 && !host.isFile(urlOrPath)
    ensures r.Err? ==> r.error == IOError("File '" + urlOrPath + "' not found.")
    ensures |host.scheme(urlOrPath)| <= 1 && host.isFile(urlOrPath)
            ==> r == Ok(FileScheme + host.pathToUrl(urlOrPath))
  {
    if !(|host.scheme(urlOrPath)| > 1) then
      if !host.isFile(urlOrPath) then Err(IOError("File '" + urlOrPath + "' not found."))
      else Ok(FileScheme + host.pathToUrl(urlOrPath))
    else Ok(urlOrPath)
  }

  /** When `urlparse` reads the scheme of the `file:` URL it built as "file", a
      resolved URL resolves to itself. */
  lemma GetUrlIdempotent(host: Host, urlOrPath: string)
    requires GetUrl(host, urlOrPath).Ok?
    requires host.scheme(FileScheme + host.pathToUrl(urlOrPath)) == "file"
    ensures GetUrl(host, GetUrl(host, urlOrPath).value) == GetUrl(host, urlOrPath)
  {
  }

  // ---------------------------------------------------------------------------
  // create_client's construction options
  // ---------------------------------------------------------------------------

  /** The keyword arguments `create_client` passes to `Client`. */
  function ConstructionOptions(autoblend: bool, imports: seq<Import>): (r: map<string, OptionValue>)
    ensures "autoblend" in r && r["autoblend"] == Flag(autoblend)
    ensures "doctor" in r <==> imports != []
    ensures "doctor" in r ==> r["doctor"] == Doctor(imports)
    ensures r.Keys <= {"autoblend", "doctor"}
  {
    var kwargs := map["autoblend" := Flag(autoblend)];
    if imports != [] then kwargs["doctor" := Doctor(imports)] else kwargs
  }

  /** What `_add_client` logs: the WSDL URL followed by the client's own rendering. */
  function UsingWsdlMessage(url: string, description: string): string {
    "Using WSDL at " + url + description
  }

  // ---------------------------------------------------------------------------
  // _log_imports
  // ---------------------------------------------------------------------------

  const ImportsHeader := "Using Imports for ImportDoctor:"

  /** `'%s' % location`: None prints as "None". */
  function LocationText(location: Option<string>): string {
    match location
    case None => "None"
    case Some(l) => l
  }

  function NamespaceLine(imp: Import): string {
    "   Namespace: '" + imp.ns + "' Location: '" + LocationText(imp.location) + "'"
  }

  function FilterLine(ns: string): string {
    "      Filtering for namespace '" + ns + "'"
  }

  function FilterLines(filters: seq<string>): seq<string> {
    seq(|filters|, i requires 0 <= i < |filters| => FilterLine(filters[i]))
  }

  /** The lines one import contributes: its namespace line, then one line per filter. */
  function ImportLines(imp: Import): seq<string> {
    [NamespaceLine(imp)] + FilterLines(imp.filters)
  }

  /** The lines of the message after its header, import by import. */
  function LogLines(imports: seq<Import>): seq<string>
    decreases |imports|
  {
    if imports == [] then []
    else LogLines(imports[..|imports| - 1]) + ImportLines(imports[|imports| - 1])
  }

  /** Each line preceded by a newline, as the source appends them. */
  function Joined(lines: seq<string>): string
    decreases |lines|
  {
    if lines == [] then ""
    else Joined(lines[..|lines| - 1]) + "\n" + lines[|lines| - 1]
  }

  /** The message `_log_imports` logs, or None when nothing is staged. */
  function ImportsMessage(imports: seq<Import>): Option<string> {
    if imports == [] then None else Some(ImportsHeader + Joined(LogLines(imports)))
  }

  /** The number of filters of the imports, taken together. */
  function TotalFilters(imports: seq<Import>): nat
    decreases |imports|
  {
    if imports == [] then 0
    else TotalFilters(imports[..|imports| - 1]) + |imports[|imports| - 1].filters|
  }

  /** Where the line of import `k` stands among the lines. */
  function Offset(imports: seq<Import>, k: nat): nat
    requires k <= |imports|
  {
    k + TotalFilters(imports[..k])
  }

  /** Appending a line to a message appends a newline and that line. */
  lemma JoinedSnoc(header: string, lines: seq<string>, line: string)
    ensures header + Joined(lines + [line]) == header + Joined(lines) + "\n" + line
  {
    assert (lines + [line])[..|lines|] == lines;
  }

  lemma FilterLinesStep(head: seq<string>, filters: seq<string>, j: nat)
    requires j < |filters|
    ensures head + FilterLines(filters[..j]) + [FilterLine(filters[j])] == head + FilterLines(filters[..j + 1])
  {
    assert FilterLines(filters[..j + 1]) == FilterLines(filters[..j]) + [FilterLine(filters[j])];
  }

  lemma LogLinesStep(imports: seq<Import>, i: nat)
    requires i < |imports|
    ensures LogLines(imports[..i + 1])
            == LogLines(imports[..i]) + [NamespaceLine(imports[i])] + FilterLines(imports[i].filters[..|imports[i].filters|])
  {
    assert imports[i].filters[..|imports[i].filters|] == imports[i].filters;
    assert imports[..i + 1][..i] == imports[..i];
  }

  lemma {:induction false} LogLinesAppend(imports: seq<Import>, imp: Import)
    ensures LogLines(imports + [imp]) == LogLines(imports) + ImportLines(imp)
    ensures TotalFilters(imports + [imp]) == TotalFilters(imports) + |imp.filters|
  {
    assert (imports + [imp])[..|imports|] == imports;
  }

  /** There is one line per import and one per filter. */
  lemma {:induction false} LogLinesCount(imports: seq<Import>)
    ensures |LogLines(imports)| == |imports| + TotalFilters(imports)
    decreases |imports|
  {
    if imports != [] {
      LogLinesCount(imports[..|imports| - 1]);
    }
  }

  /** In order: the line of import `k` is its namespace line, and it is followed
      by one filtering line per filter namespace of that import. */
  lemma {:induction false} LogLinesAt(imports: seq<Import>, k: nat)
    requires k < |imports|
    ensures Offset(imports, k) + |imports[k].filters| < |LogLines(imports)|
    ensures LogLines(imports)[Offset(imports, k)] == NamespaceLine(imports[k])
    ensures forall j :: 0 <= j < |imports[k].filters| ==>
              LogLines(imports)[Offset(imports, k) + 1 + j] == FilterLine(imports[k].filters[j])
    decreases |imports|
  {
    var n := |imports|;
    var front := imports[..n - 1];
    var last := imports[n - 1];
    assert front + [last] == imports;
    LogLinesAppend(front, last);
    LogLinesCount(front);
    var all := LogLines(imports);
    assert all == LogLines(front) + ImportLines(last);
    if k < n - 1 {
      LogLinesAt(front, k);
      assert front[..k] == imports[..k];
      assert Offset(imports, k) == Offset(front, k);
      assert imports[k] == front[k];
      forall j | 0 <= j < |imports[k].filters|
        ensures all[Offset(imports, k) + 1 + j] == FilterLine(imports[k].filters[j])
      {
        assert all[Offset(front, k) + 1 + j] == LogLines(front)[Offset(front, k) + 1 + j];
      }
    } else {
      assert imports[..k] == front;
      assert Offset(imports, k) == |LogLines(front)|;
      forall j | 0 <= j < |last.filters|
        ensures all[Offset(imports, k) + 1 + j] == FilterLine(last.filters[j])
      {
        assert all[|LogLines(front)| + 1 + j] == ImportLines(last)[1 + j];
      }
    }
  }
}
