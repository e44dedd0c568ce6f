/** Choosing the northbound cloud adapter, and reading the HiveMQ connection
    string `hostname=…:443;username=…;password=…;ana=…` into the adapter's
    username, password, credential endpoint and MQTT endpoint. */
module NorthAdapters {
  import opened Wrappers
  import opened Strings

  /** The configuration crate's error; it displays as "get config: [..]". */
  datatype ConfigError = GetConfig(detail: string)

  function ConfigErrorText(e: ConfigError): string {
    "get config: [" + e.detail + "]"
  }

  datatype HiveMQConfig = HiveMQConfig(username: string, password: string, anaEndpoint: string, mqttEndpoint: string)

  datatype NorthAdapter = HiveMQ(config: HiveMQConfig)

  /** The server list `get_north_adapters` works from; it is fixed in the code. */
  const SERVERS: seq<string> := ["server1", "server2"]

  /** `{:?}` of a list of plain strings (no quote or backslash inside). */
  function DebugList(xs: seq<string>): string {
    "[" + DebugItems(xs) + "]"
  }

  function DebugItems(xs: seq<string>): string
    decreases |xs|
  {
    if |xs| == 0 then ""
    else if |xs| == 1 then "\"" + xs[0] + "\""
    else "\"" + xs[0] + "\", " + DebugItems(xs[1..])
  }

  const MULTIPLE_PREFIX: string := "Only 1 server is currently supported, multiple were found. ["
  const NO_SERVER: string := "0 servers found, configuration is not possible"

  /** The server-count check of `get_north_adapters`: exactly one server gives the
      placeholder HiveMQ configuration; more, or none, is a configuration error. */
  function CheckServers(servers: seq<string>): (r: Result<NorthAdapter, ConfigError>)
    ensures r.Ok? <==> |servers| == 1
    ensures |servers| == 0 ==> r == Err(GetConfig(NO_SERVER))
    ensures |servers| > 1 ==> r.Err? && StartsWith(r.error.detail, MULTIPLE_PREFIX)
  {
    if |servers| > 1 then Err(GetConfig(MULTIPLE_PREFIX + DebugList(servers) + "]"))
    else if |servers| == 0 then Err(GetConfig(NO_SERVER))
    else Ok(HiveMQ(HiveMQConfig("username", "password", "ana_endpoint", "mqtt_endpoint")))
  }

  /** `get_north_adapters`: the argument is not used, and the fixed list holds two
      servers, so the call always fails. */
  function GetNorthAdapters(tmp: string): (r: Result<NorthAdapter, ConfigError>)
    ensures r.Err?
  {
    CheckServers(SERVERS)
  }

  /** `{:?}` of the fixed server list. */
  lemma ServersDebug()
    ensures DebugList(SERVERS) == "[\"server1\", \"server2\"]"
  {
    assert SERVERS[1..] == ["server2"];
    assert DebugItems(["server2"]) == "\"server2\"";
    assert DebugItems(SERVERS) == "\"server1\", \"server2\"";
  }

  /** The text of that failure, written out. */
  lemma GetNorthAdaptersMessage(tmp: string)
    ensures GetNorthAdapters(tmp)
            == Err(GetConfig("Only 1 server is currently supported, multiple were found. [[\"server1\", \"server2\"]]"))
  {
    ServersDebug();
    assert MULTIPLE_PREFIX + "[\"server1\", \"server2\"]" + "]"
        == "Only 1 server is currently supported, multiple were found. [[\"server1\", \"server2\"]]";
  }

  // ---------------------------------------------------------------------------
  // parse_connection_string

  const MQTT_SUFFIX: string := "/mqtt"
  const ANA_SUFFIX: string := "/api/v1/hivemq"

  function MissingUsername(c: string): ConfigError {
    GetConfig("missing value ?username? in connection string. [" + c + "]")
  }

  function MissingPassword(c: string): ConfigError {
    GetConfig("missing value ?password? from connection string. [" + c + "]")
  }

  function MissingAna(c: string): ConfigError {
    GetConfig("missing value ?ana? from connection string. [" + c + "]")
  }

  /** The four values read from a connection string, in the order the adapter's
      configuration takes them. */
  datatype Parsed = Parsed(username: string, password: string, ana: string, mqtt: string)

  /** `parse_connection_string`: the first four ';'-separated fields, with every
      "hostname=" and ":443" removed from the first, "username=", "password=" and
      "ana=" from the others, and the two endpoint paths appended. The first
      field always exists, since splitting always gives at least one piece. */
  function ParseConnectionString(c: string): (r: Result<Parsed, ConfigError>)
    ensures r.Ok? <==> |Split(c, ';')| >= 4
    ensures |Split(c, ';')| == 1 ==> r == Err(MissingUsername(c))
    ensures |Split(c, ';')| == 2 ==> r == Err(MissingPassword(c))
    ensures |Split(c, ';')| == 3 ==> r == Err(MissingAna(c))
    ensures r.Ok? ==> EndsWith(r.value.mqtt, MQTT_SUFFIX) && EndsWith(r.value.ana, ANA_SUFFIX)
  {
    var fields := Split(c, ';');
    var mqtt := RemoveAll(RemoveAll(fields[0], "hostname="), ":443") + MQTT_SUFFIX;
    if |fields| < 2 then Err(MissingUsername(c))
    else
      var username := RemoveAll(fields[1], "username=");
      if |fields| < 3 then Err(MissingPassword(c))
      else
        var password := RemoveAll(fields[2], "password=");
        if |fields| < 4 then Err(MissingAna(c))
        else
          var ana := RemoveAll(fields[3], "ana=") + ANA_SUFFIX;
          Ok(Parsed(username, password, ana, mqtt))
  }

  /** The connection string a provisioning service issues for these values. */
  function ConnectionString(host: string, username: string, password: string, ana: string): string {
    "hostname=" + host + ":443;username=" + username + ";password=" + password + ";ana=" + ana
  }

  /** A value with a key prefix in front loses exactly the prefix. */
  lemma StripKey(key: string, v: string)
    requires |key| > 0 && key[|key| - 1] == '=' && '=' !in v
    ensures RemoveAll(key + v, key) == v
  {
    RemoveAllLeading(key, v);
    RemoveAllAbsent(v, key, '=');
  }

  /** Four fields without the separator, joined by it, split back into themselves. */
  lemma SplitFour(f0: string, f1: string, f2: string, f3: string)
    requires ';' !in f0 && ';' !in f1 && ';' !in f2 && ';' !in f3
    ensures Split(f0 + ";" + f1 + ";" + f2 + ";" + f3, ';') == [f0, f1, f2, f3]
  {
    var t2 := f2 + [';'] + f3;
    var t1 := f1 + [';'] + t2;
    var t0 := f0 + [';'] + t1;
    assert f0 + ";" + f1 + ";" + f2 + ";" + f3 == t0;
    SplitNoSeparator(f3, ';');
    SplitPrefix(f2, ';', f3);
    assert Split(t2, ';') == [f2, f3];
    SplitPrefix(f1, ';', t2);
    assert Split(t1, ';') == [f1, f2, f3];
    SplitPrefix(f0, ';', t1);
    assert Split(t0, ';') == [f0] + [f1, f2, f3];
  }

  /** The host field loses its key and its port. */
  lemma HostField(host: string)
    requires '=' !in host && ':' !in host
    ensures RemoveAll(RemoveAll("hostname=" + host + ":443", "hostname="), ":443") == host
  {
    assert "hostname=" + host + ":443" == "hostname=" + (host + ":443");
    StripKey("hostname=", host + ":443");
    RemoveAllNoStart(host, ":443", ":443");
    RemoveAllLeading(":443", "");
    assert host + ":443" + "" == host + ":443";
    RemoveAllShort("", ":443");
    assert host + "" == host;
  }

  /** Parsing reads back the values a well-formed connection string was made from,
      as long as they hold none of the characters the parser treats specially. */
  lemma ParseRoundTrip(host: string, username: string, password: string, ana: string)
    requires ';' !in host && ';' !in username && ';' !in password && ';' !in ana
    requires '=' !in host && '=' !in username && '=' !in password && '=' !in ana
    requires ':' !in host
    ensures ParseConnectionString(ConnectionString(host, username, password, ana))
            == Ok(Parsed(username, password, ana + ANA_SUFFIX, host + MQTT_SUFFIX))
  {
    var f0 := "hostname=" + host + ":443";
    var f1 := "username=" + username;
    var f2 := "password=" + password;
    var f3 := "ana=" + ana;
    assert ConnectionString(host, username, password, ana) == f0 + ";" + f1 + ";" + f2 + ";" + f3;
    SplitFour(f0, f1, f2, f3);
    HostField(host);
    StripKey("username=", username);
    StripKey("password=", password);
    StripKey("ana=", ana);
  }

  /** Fields after the fourth are never looked at. */
  lemma ExtraFieldsIgnored(c: string, extra: string)
    requires |Split(c, ';')| >= 4
    ensures ParseConnectionString(c + ";" + extra) == ParseConnectionString(c)
  {
    SplitConcat(c, ';', extra);
    assert c + ";" + extra == c + [';'] + extra;
    var fs := Split(c + ";" + extra, ';');
    assert fs[..4] == Split(c, ';')[..4];
  }

  /** The key is removed anywhere in a field, not only at its start. */
  lemma KeyRemovedAnywhere()
    ensures ParseConnectionString("h;u;p;xana=y") == Ok(Parsed("u", "p", "xy" + ANA_SUFFIX, "h" + MQTT_SUFFIX))
  {
    assert "h;u;p;xana=y" == "h" + ";" + "u" + ";" + "p" + ";" + "xana=y";
    SplitFour("h", "u", "p", "xana=y");
    RemoveAllShort("h", "hostname=");
    RemoveAllShort("h", ":443");
    RemoveAllShort("u", "username=");
    RemoveAllShort("p", "password=");
    assert "xana=y" == "x" + ("ana=" + "y");
    RemoveAllNoStart("x", "ana=" + "y", "ana=");
    RemoveAllLeading("ana=", "y");
    RemoveAllShort("y", "ana=");
    assert "x" + "y" == "xy";
  }
}
