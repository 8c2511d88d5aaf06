/** The keyword library's state and its keywords: the helper mixins
    `_ClientManagementKeywords` (src/SudsLibrary/clientmanagement.py) and
    `_OptionsKeywords` (src/SudsLibrary/options.py) share one `self`, which is
    `SudsLibrary` here. The suds client is reduced to what the keywords touch:
    its options, its plugin list and calls on its services. */
module Library {
  import opened SudsValues
  import opened Options
  import opened ClientManagement

  /** What suds reads from a WSDL document and the keywords use: the number of
      services and the text `str(client)` renders. */
  datatype Wsdl = Wsdl(serviceCount: nat, description: string)

  /** The SOAP message logger the library installs as a plugin on every client. */
  class Listener {
    var log: bool

    constructor (log: bool)
      ensures this.log == log
    {
      this.log := log;
    }
  }

  /** A suds `Client`, seen from the keywords. */
  class SudsClient {
    const wsdlUrl: string
    const serviceCount: nat
    const description: string
    var options: map<string, OptionValue>
    var plugins: seq<object>
    var locationCalls: seq<LocationCall>

    /** `Client(url, **kwargs)`. */
    constructor (url: string, kwargs: map<string, OptionValue>, wsdl: Wsdl)
      ensures wsdlUrl == url && serviceCount == wsdl.serviceCount && description == wsdl.description
      ensures options == kwargs && plugins == [] && locationCalls == []
    {
      wsdlUrl, serviceCount, description := url, wsdl.serviceCount, wsdl.description;
      options, plugins, locationCalls := kwargs, [], [];
    }

    /** Neither the plugins nor the services changed since the method started. */
    twostate predicate KeepsPluginsAndServices()
      reads this
    {
      plugins == old(plugins) && locationCalls == old(locationCalls)
    }

    /** `client.set_options(**changes)`. */
    method SetOptions(changes: map<string, OptionValue>)
      modifies this
      ensures options == old(options) + changes
      ensures KeepsPluginsAndServices()
    {
      options := options + changes;
    }

    /** `client.options.plugins.append(plugin)`. */
    method AppendPlugin(plugin: object)
      modifies this
      ensures plugins == old(plugins) + [plugin]
      ensures options == old(options) && locationCalls == old(locationCalls)
    {
      plugins := plugins + [plugin];
    }

    /** `wsdl.services[service].setlocation(url, names)`, recorded. */
    method SetServiceLocation(service: nat, url: string, names: Option<seq<string>>)
      requires service < serviceCount
      modifies this
      ensures locationCalls == old(locationCalls) + [LocationCall(service, url, names)]
      ensures options == old(options) && plugins == old(plugins)
    {
      locationCalls := locationCalls + [LocationCall(service, url, names)];
    }
  }

  /** One `self._cache.register(client, alias)`. */
  datatype Registration = Registration(client: SudsClient, alias: Option<string>)

  /** The messages a logger call adds. */
  function Logged(message: Option<string>): seq<string> {
    match message
    case None => []
    case Some(m) => [m]
  }

  class SudsLibrary {
    const listener: Listener
    /** `self._imports`: the doctor imports staged for the next client. */
    var imports: seq<Import>
    /** `self._logging_option`: whether the listener logs, per client. */
    var loggingOption: map<SudsClient, bool>
    /** The connection cache: the registrations in order and the current client. */
    var registered: seq<Registration>
    var current: SudsClient?
    /** `self._old_options`, absent until the first backup. */
    var oldOptions: Option<map<string, OptionValue>>
    /** What `self._logger.info` has been given. */
    var infoLog: seq<string>

    ghost function Clients(): set<SudsClient>
      reads this
    {
      set r | r in registered :: r.client
    }

    /** Every registered client has a logging flag, and the current client is a registered one. */
    ghost predicate Valid()
      reads this
    {
      Clients() <= loggingOption.Keys && (current != null ==> current in Clients())
    }

    constructor (listener: Listener)
      ensures Valid() && this.listener == listener
      ensures imports == [] && loggingOption == map[] && registered == [] && current == null
      ensures oldOptions == None && infoLog == []
    {
      this.listener := listener;
      imports, loggingOption, registered, current := [], map[], [], null;
      oldOptions, infoLog := None, [];
    }

    // -------------------------------------------------------------------------
    // clientmanagement.py
    // -------------------------------------------------------------------------

    /** `create_client`: resolve the WSDL argument, build the construction
        options from the staged imports, make the client and add it. */
    method CreateClient(host: Host, urlOrPath: string, wsdl: Wsdl, alias: Option<string> := None, autoblend: bool := false)
      returns (r: Result<SudsClient>)
      requires Valid()
      modifies this
      ensures Valid()
      ensures GetUrl(host, urlOrPath).Err? ==> r == Err(GetUrl(host, urlOrPath).error) && unchanged(this)
      ensures GetUrl(host, urlOrPath).Ok? ==>
                r.Ok? && fresh(r.value)
                && r.value.wsdlUrl == GetUrl(host, urlOrPath).value
                && r.value.serviceCount == wsdl.serviceCount
                && r.value.options == ConstructionOptions(autoblend, old(imports))["faults" := Flag(true)]
                && r.value.plugins == [listener]
                && r.value.locationCalls == []
                && imports == []
                && loggingOption == old(loggingOption)[r.value := true]
                && registered == old(registered) + [Registration(r.value, alias)]
                && current == r.value
                && oldOptions == old(oldOptions)
                && infoLog == old(infoLog) + Logged(ImportsMessage(old(imports)))
                              + [UsingWsdlMessage(r.value.wsdlUrl, wsdl.description)]
    {
      var url := GetUrl(host, urlOrPath);
      if url.Err? {
        return Err(url.error);
      }
      var kwargs := map["autoblend" := Flag(autoblend)];
      if imports != [] {
        LogImports();
        kwargs := kwargs["doctor" := Doctor(imports)];
      }
      var client := new SudsClient(url.value, kwargs, wsdl);
      AddClient(client, alias);
      r := Ok(client);
    }

    /** `switch_client`: the cache resolves the index or alias (None when it
        cannot); the listener then logs as the chosen client was set to. */
    method SwitchClient(found: Option<SudsClient>) returns (r: Outcome)
      requires Valid()
      requires found.Some? ==> found.value in Clients()
      modifies this`current, listener`log
      ensures Valid()
      ensures found.None? ==> r == Failed(LookupFailed) && current == old(current) && listener.log == old(listener.log)
      ensures found.Some? ==> r == Done && current == found.value && listener.log == loggingOption[found.value]
    {
      if found.None? {
        return Failed(LookupFailed);
      }
      var client := found.value;
      current := client;
      listener.log := loggingOption[client];
      r := Done;
    }

    /** `_add_client`: install the listener, force faults, log the WSDL, drop
        the staged imports, enable logging for this client and register it. */
    method AddClient(client: SudsClient, alias: Option<string>)
      requires Valid()
      modifies this, client
      ensures Valid()
      ensures client.plugins == old(client.plugins) + [listener]
      ensures client.options == old(client.options)["faults" := Flag(true)]
      ensures client.locationCalls == old(client.locationCalls)
      ensures infoLog == old(infoLog) + [UsingWsdlMessage(client.wsdlUrl, client.description)]
      ensures imports == []
      ensures loggingOption == old(loggingOption)[client := true]
      ensures registered == old(registered) + [Registration(client, alias)]
      ensures current == client
      ensures oldOptions == old(oldOptions)
    {
      client.AppendPlugin(listener);
      client.SetOptions(map["faults" := Flag(true)]);
      assert client.options == old(client.options)["faults" := Flag(true)];
      infoLog := infoLog + [UsingWsdlMessage(client.wsdlUrl, client.description)];
      imports := [];
      loggingOption := loggingOption[client := true];
      registered := registered + [Registration(client, alias)];
      current := client;
      assert Clients() == old(Clients()) + {client};
    }

    /** `_log_imports`: one message, built line by line, when imports are staged. */
    method LogImports()
      modifies this`infoLog
      ensures infoLog == old(infoLog) + Logged(ImportsMessage(imports))
    {
      if imports != [] {
        var staged := imports;
        var msg := ImportsHeader;
        ghost var lines: seq<string> := [];
        for i := 0 to |staged|
          invariant lines == LogLines(staged[..i])
          invariant msg == ImportsHeader + Joined(lines)
          invariant infoLog == old(infoLog)
        {
          var imp := staged[i];
          JoinedSnoc(ImportsHeader, lines, NamespaceLine(imp));
          msg := msg + "\n" + NamespaceLine(imp);
          lines := lines + [NamespaceLine(imp)];
          ghost var head := lines;
          for j := 0 to |imp.filters|
            invariant lines == head + FilterLines(imp.filters[..j])
            invariant msg == ImportsHeader + Joined(lines)
            invariant infoLog == old(infoLog)
          {
            var line := FilterLine(imp.filters[j]);
            JoinedSnoc(ImportsHeader, lines, line);
            FilterLinesStep(head, imp.filters, j);
            msg := msg + "\n" + line;
            lines := lines + [line];
          }
          LogLinesStep(staged, i);
        }
        assert ImportsMessage(imports) == Some(msg) by {
          assert staged[..|staged|] == staged;
        }
        infoLog := infoLog + [msg];
      } else {
        assert Logged(ImportsMessage(imports)) == [];
      }
    }

    // -------------------------------------------------------------------------
    // options.py
    // -------------------------------------------------------------------------

    /** `self._client().set_options(**changes)`, failing when there is no client. */
    method ApplyOptions(changes: map<string, OptionValue>) returns (r: Outcome)
      modifies current
      ensures r == if current == null then Failed(NoClient) else Done
      ensures current != null ==> current.options == old(current.options) + changes
      ensures current != null ==> current.KeepsPluginsAndServices()
    {
      if current == null {
        return Failed(NoClient);
      }
      current.SetOptions(changes);
      r := Done;
    }

    /** `set_service`, given what `parse_index` made of its argument. */
    method SetService(service: Selector) returns (r: Outcome)
      modifies current
      ensures r == if current == null then Failed(NoClient) else Done
      ensures current != null ==> current.options == old(current.options)["service" := Chosen(service)]
      ensures current != null ==> current.KeepsPluginsAndServices()
    {
      r := ApplyOptions(map["service" := Chosen(service)]);
      assert current != null ==> current.options == old(current.options)["service" := Chosen(service)];
    }

    /** `set_port`, given what `parse_index` made of its argument. */
    method SetPort(port: Selector) returns (r: Outcome)
      modifies current
      ensures r == if current == null then Failed(NoClient) else Done
      ensures current != null ==> current.options == old(current.options)["port" := Chosen(port)]
      ensures current != null ==> current.KeepsPluginsAndServices()
    {
      r := ApplyOptions(map["port" := Chosen(port)]);
      assert current != null ==> current.options == old(current.options)["port" := Chosen(port)];
    }

    /** `set_proxies`: an odd-length list fails before any option is set. */
    method SetProxies(args: seq<Arg>) returns (r: Outcome)
      modifies current
      ensures Proxies(args).Err? ==> r == Failed(Proxies(args).error) && (current != null ==> unchanged(current))
      ensures Proxies(args).Ok? ==> r == if current == null then Failed(NoClient) else Done
      ensures Proxies(args).Ok? && current != null ==>
                current.options == old(current.options)["proxy" := PairTable(Proxies(args).value)]
                && current.KeepsPluginsAndServices()
    {
      if |args| % 2 != 0 {
        return Failed(ValueError(ProxiesOddMessage));
      }
      var proxy := CollectPairs(args);
      if proxy.Err? {
        return Failed(proxy.error);
      }
      r := ApplyOptions(map["proxy" := PairTable(proxy.value)]);
      assert current != null ==> current.options == old(current.options)["proxy" := PairTable(proxy.value)];
    }

    /** `set_headers`: a single argument passes through, pairs fold as for proxies. */
    method SetHeaders(args: seq<Arg>) returns (r: Outcome)
      modifies current
      ensures Headers(args).Err? ==> r == Failed(Headers(args).error) && (current != null ==> unchanged(current))
      ensures Headers(args).Ok? ==> r == if current == null then Failed(NoClient) else Done
      ensures Headers(args).Ok? && current != null ==>
                current.options == old(current.options)["headers" := Headers(args).value]
                && current.KeepsPluginsAndServices()
    {
      var headers: OptionValue;
      if |args| == 1 {
        headers := Given(args[0]);
      } else if |args| % 2 == 0 {
        var pairs := CollectPairs(args);
        if pairs.Err? {
          return Failed(pairs.error);
        }
        headers := PairTable(pairs.value);
      } else {
        return Failed(ValueError(HeadersOddMessage));
      }
      r := ApplyOptions(map["headers" := headers]);
      assert current != null ==> current.options == old(current.options)["headers" := headers];
    }

    /** `set_soap_headers`: the headers pass through as given. */
    method SetSoapHeaders(headers: seq<Arg>) returns (r: Outcome)
      modifies current
      ensures r == if current == null then Failed(NoClient) else Done
      ensures current != null ==> current.options == old(current.options)["soapheaders" := SoapHeaders(headers)]
      ensures current != null ==> current.KeepsPluginsAndServices()
    {
      r := ApplyOptions(map["soapheaders" := SoapHeaders(headers)]);
      assert current != null ==> current.options == old(current.options)["soapheaders" := SoapHeaders(headers)];
    }

    /** `set_return_xml` through `_set_boolean_option`, given what `to_bool` made of its argument. */
    method SetReturnXml(returnXml: bool) returns (r: Outcome)
      modifies current
      ensures r == if current == null then Failed(NoClient) else Done
      ensures current != null ==> current.options == old(current.options)["retxml" := Flag(returnXml)]
      ensures current != null ==> current.KeepsPluginsAndServices()
    {
      r := ApplyOptions(map["retxml" := Flag(returnXml)]);
      assert current != null ==> current.options == old(current.options)["retxml" := Flag(returnXml)];
    }

    /** `set_http_authentication`: the type is looked up before the client is touched. */
    method SetHttpAuthentication(username: string, password: string, authType: string := "STANDARD") returns (r: Outcome)
      modifies current
      ensures AuthTypeOf(authType).Err? ==> r == Failed(AuthTypeOf(authType).error) && (current != null ==> unchanged(current))
      ensures AuthTypeOf(authType).Ok? ==> r == if current == null then Failed(NoClient) else Done
      ensures AuthTypeOf(authType).Ok? && current != null ==>
                current.options == old(current.options)["transport" := Transport(AuthTypeOf(authType).value, username, password)]
                && current.KeepsPluginsAndServices()
    {
      var kind := AuthTypeOf(authType);
      if kind.Err? {
        return Failed(kind.error);
      }
      var transport := Transport(kind.value, username, password);
      r := ApplyOptions(map["transport" := transport]);
      assert current != null ==> current.options == old(current.options)["transport" := transport];
    }

    /** `set_location`: call `setlocation` on the targeted services, in order. */
    method SetLocation(url: string, serviceIndex: int := -1, names: seq<string> := []) returns (r: Outcome)
      modifies current
      ensures current == null ==> r == Failed(NoClient)
      ensures current != null && LocationTargets(current.serviceCount, serviceIndex).Err? ==>
                r == Failed(IndexError) && unchanged(current)
      ensures current != null && LocationTargets(current.serviceCount, serviceIndex).Ok? ==>
                r == Done
                && current.locationCalls == old(current.locationCalls)
                     + LocationCalls(LocationTargets(current.serviceCount, serviceIndex).value, url, LocationNames(names))
      ensures current != null ==> current.options == old(current.options) && current.plugins == old(current.plugins)
    {
      if current == null {
        return Failed(NoClient);
      }
      var client := current;
      var count := client.serviceCount;
      var index := if count == 1 then 0 else serviceIndex;
      var chosen := LocationNames(names);
      if index < 0 {
        var i := 0;
        while i < count
          invariant 0 <= i <= count
          invariant client.locationCalls == old(client.locationCalls) + LocationCalls(AllServices(i), url, chosen)
          invariant client.options == old(client.options) && client.plugins == old(client.plugins)
        {
          assert LocationCalls(AllServices(i + 1), url, chosen)
                 == LocationCalls(AllServices(i), url, chosen) + [LocationCall(i, url, chosen)];
          client.SetServiceLocation(i, url, chosen);
          i := i + 1;
        }
        r := Done;
      } else if index < count {
        client.SetServiceLocation(index, url, chosen);
        assert LocationCalls([index as nat], url, chosen) == [LocationCall(index, url, chosen)];
        r := Done;
      } else {
        r := Failed(IndexError);
      }
    }

    /** `add_doctor_import`: stage one more import for the next client. */
    method AddDoctorImport(importNamespace: string, location: Option<string> := None, filters: seq<string> := [])
      modifies this`imports
      ensures imports == old(imports) + [Import(importNamespace, StoredLocation(location), filters)]
    {
      var stored := StoredLocation(location);
      var imp := Import(importNamespace, stored, []);
      for i := 0 to |filters|
        invariant imp == Import(importNamespace, stored, filters[..i])
      {
        imp := imp.(filters := imp.filters + [filters[i]]);
        assert filters[..i + 1] == filters[..i] + [filters[i]];
      }
      assert filters[..|filters|] == filters;
      imports := imports + [imp];
    }

    /** `_backup_options`: save the current client's `service` and `port`. */
    method BackupOptions() returns (r: Outcome)
      modifies this`oldOptions
      ensures current == null ==> r == Failed(NoClient) && oldOptions == old(oldOptions)
      ensures current != null ==> r == Done && oldOptions == Some(Backup(current.options))
    {
      if current == null {
        return Failed(NoClient);
      }
      oldOptions := Some(Backup(current.options));
      r := Done;
    }

    /** `_restore_options`: set the saved `service` and `port` back on the current client. */
    method RestoreOptions() returns (r: Outcome)
      modifies current
      ensures current == null ==> r == Failed(NoClient)
      ensures current != null && oldOptions.None? ==> r == Failed(NoBackup) && unchanged(current)
      ensures current != null && oldOptions.Some? ==>
                r == Done && current.options == Restore(old(current.options), oldOptions.value)
                && current.KeepsPluginsAndServices()
    {
      if current == null {
        return Failed(NoClient);
      }
      if oldOptions.None? {
        return Failed(NoBackup);
      }
      r := ApplyOptions(oldOptions.value);
    }
  }
}
