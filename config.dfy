/**
 * The agent's settings (code.py:6-38): read from the `secrets` dictionary at
 * start-up. Eight settings are required; the port, the measurement name and
 * the tags have defaults. A missing or empty required setting stops the
 * program before it does anything else.
 */
module Config {
  import opened Wrappers
  import opened PyInt

  /** A value of the `secrets` dictionary: text, or a number such as the port. */
  datatype Setting = Text(text: string) | Number(n: int)

  type Secrets = map<string, Setting>

  /** How `"%s"` and f-strings render a setting. */
  function Show(v: Setting): string {
    match v
    case Text(s) => s
    case Number(n) => Decimal(n)
  }

  /** Why start-up stopped: the setting that is missing, or a port that is not a number. */
  datatype ConfigError = Unset(key: string) | BadPort

  /** `_need(key)` (code.py:11-15): the setting, unless it is missing or the empty string. */
  function Need(secrets: Secrets, key: string): (r: Result<string, ConfigError>)
    ensures r.Ok? <==> key in secrets && secrets[key] != Text("")
    ensures r.Ok? ==> r.value == Show(secrets[key])
    ensures r.Err? ==> r.error == Unset(key)
  {
    if key !in secrets || secrets[key] == Text("") then Err(Unset(key))
    else Ok(Show(secrets[key]))
  }

  /** `int(secrets.get("influx_port", 8086))`. */
  function Port(secrets: Secrets): Option<int> {
    if "influx_port" !in secrets then Some(8086)
    else match secrets["influx_port"]
      case Number(n) => Some(n)
      case Text(s) => ParseInt(s, 10)
  }

  datatype Settings = Settings(
    ssid: string, password: string,
    host: string, port: int, db: string, user: string, pass: string,
    rbid: string, rbpwd: string,
    measurement: string, tags: string)

  /** `secrets.get(key, default)` rendered as text. */
  function Optional(secrets: Secrets, key: string, default: string): string {
    if key in secrets then Show(secrets[key]) else default
  }

  /** The settings in the order code.py:17-31 reads them; the first failure stops start-up. */
  function Load(secrets: Secrets): Result<Settings, ConfigError> {
    var ssid := Need(secrets, "ssid");
    if ssid.Err? then Err(ssid.error) else
    var password := Need(secrets, "password");
    if password.Err? then Err(password.error) else
    var host := Need(secrets, "influx_host");
    if host.Err? then Err(host.error) else
    var port := Port(secrets);
    if port.None? then Err(BadPort) else
    var db := Need(secrets, "influx_db");
    if db.Err? then Err(db.error) else
    var user := Need(secrets, "influx_user");
    if user.Err? then Err(user.error) else
    var pass := Need(secrets, "influx_pass");
    if pass.Err? then Err(pass.error) else
    var rbid := Need(secrets, "rbid");
    if rbid.Err? then Err(rbid.error) else
    var rbpwd := Need(secrets, "rbpwd");
    if rbpwd.Err? then Err(rbpwd.error) else
    Ok(Settings(ssid.value, password.value, host.value, port.value, db.value, user.value, pass.value,
      rbid.value, rbpwd.value,
      Optional(secrets, "measurement", "power"), Optional(secrets, "tags", "place=uni,host=RL7023")))
  }

  /** The settings `_need` insists on, in the order it asks for them. */
  const Required: seq<string> := ["ssid", "password", "influx_host", "influx_db", "influx_user", "influx_pass", "rbid", "rbpwd"]

  predicate Given(secrets: Secrets, key: string) {
    key in secrets && secrets[key] != Text("")
  }

  /**
   * Start-up succeeds exactly when every required setting is given and the
   * port is a number; then each required setting and the defaults are taken
   * over as they are.
   */
  lemma LoadOk(secrets: Secrets)
    ensures Load(secrets).Ok? <==> (forall k :: k in Required ==> Given(secrets, k)) && Port(secrets).Some?
    ensures Load(secrets).Ok? ==>
      var s := Load(secrets).value;
      && s.ssid == Show(secrets["ssid"]) && s.password == Show(secrets["password"])
      && s.host == Show(secrets["influx_host"]) && s.port == Port(secrets).value
      && s.db == Show(secrets["influx_db"]) && s.user == Show(secrets["influx_user"])
      && s.pass == Show(secrets["influx_pass"])
      && s.rbid == Show(secrets["rbid"]) && s.rbpwd == Show(secrets["rbpwd"])
      && s.measurement == Optional(secrets, "measurement", "power")
      && s.tags == Optional(secrets, "tags", "place=uni,host=RL7023")
      && ("measurement" !in secrets ==> s.measurement == "power")
      && ("tags" !in secrets ==> s.tags == "place=uni,host=RL7023")
  {
    if (forall k :: k in Required ==> Given(secrets, k)) && Port(secrets).Some? {
      assert Required[0] == "ssid" && Required[1] == "password" && Required[2] == "influx_host";
      assert Required[3] == "influx_db" && Required[4] == "influx_user" && Required[5] == "influx_pass";
      assert Required[6] == "rbid" && Required[7] == "rbpwd";
      assert Given(secrets, "ssid") && Given(secrets, "password") && Given(secrets, "influx_host");
      assert Given(secrets, "influx_db") && Given(secrets, "influx_user") && Given(secrets, "influx_pass");
      assert Given(secrets, "rbid") && Given(secrets, "rbpwd");
    }
    if Load(secrets).Ok? {
      forall k | k in Required
        ensures Given(secrets, k)
      {
        assert k == "ssid" || k == "password" || k == "influx_host" || k == "influx_db"
          || k == "influx_user" || k == "influx_pass" || k == "rbid" || k == "rbpwd";
      }
    }
  }

  /** A missing or empty `ssid` is the first thing start-up reports. */
  lemma FirstMissingReported(secrets: Secrets)
    requires !Given(secrets, "ssid")
    ensures Load(secrets) == Err(Unset("ssid"))
  {
  }

  /** A port given as decimal text is read as its number. */
  lemma PortText(secrets: Secrets, n: int)
    requires "influx_port" in secrets && secrets["influx_port"] == Text(Decimal(n))
    ensures Port(secrets) == Some(n)
  {
    DecimalRoundTrip(n);
  }

  /** `INFLUX_URL` (code.py:35-38): the write endpoint with the credentials in the query. */
  function WriteUrl(s: Settings): string {
    "http://" + s.host + ":" + Decimal(s.port) + "/write?db=" + s.db + "&u=" + s.user + "&p=" + s.pass
  }
}
