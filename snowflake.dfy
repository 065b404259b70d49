/**
 * Snowflake connection parameters: the `SnowflakeConnection` record and the keyword arguments
 * its `connect` passes on (bi_modules/bi_db.py:9-32, bi_modules/bi_modules.py:355-378), and the
 * derivation of role, database and SQLAlchemy URL in the `sf_*_connection` helpers. Credential
 * blocks and `env == 'QA'` are inputs; the connector and `create_engine` are not modelled, only
 * what they receive.
 */
module Snowflake {
  import opened Wrappers
  import Text

  const QaRole := "DEV_DATA_ENG_FR_AM"
  const QaSuffix := "_QA"
  const QmarkParamstyle := "qmark"

  /** The fields of a Prefect `SnowflakeCredentials` block the code reads. */
  datatype Credentials = Credentials(user: string, password: string, account: string, role: string)

  datatype SnowflakeConnection = SnowflakeConnection(account: string, database: string, schema: string, username: string,
                                                     password: string, warehouse: string, role: string)

  /** The keyword arguments of `snowflake.connector.connect`. */
  datatype ConnectArgs = ConnectArgs(user: string, password: string, account: string, database: string,
                                     schema: string, warehouse: string, role: string)

  /** What `sf_pe_prod_connection` hands back: an engine for a URL, or a connector opened with
      these arguments after setting the module's `paramstyle`. */
  datatype Handle = Engine(url: string) | Connector(args: ConnectArgs, paramstyle: string)

  /** `SnowflakeConnection.connect`: every field goes to the argument of the same meaning. */
  function Connect(c: SnowflakeConnection): (a: ConnectArgs)
    ensures a.user == c.username && a.password == c.password && a.account == c.account
    ensures a.database == c.database && a.schema == c.schema && a.warehouse == c.warehouse && a.role == c.role
  {
    ConnectArgs(c.username, c.password, c.account, c.database, c.schema, c.warehouse, c.role)
  }

  /** The connection is recoverable from the arguments it connects with. */
  function Unconnect(a: ConnectArgs): SnowflakeConnection
  {
    SnowflakeConnection(a.account, a.database, a.schema, a.user, a.password, a.warehouse, a.role)
  }

  lemma ConnectLosesNothing(c: SnowflakeConnection)
    ensures Unconnect(Connect(c)) == c
  {
  }

  // ------------------------------------------------------------ SQLAlchemy URL

  datatype UrlParts = UrlParts(user: string, password: string, account: string, database: string,
                               schema: string, role: string, warehouse: string)

  const Scheme := "snowflake://"
  const RoleKey := "role="
  const WarehouseKey := "warehouse="

  /** `a`, the delimiter `c`, then `b`. */
  function Joined(a: string, c: char, b: string): string
  {
    a + [c] + b
  }

  /** bi_db.py:55: `snowflake://{user}:{password}@{account}/{database}/{schema}?role={role}&warehouse={warehouse}`,
      grouped from the right. */
  function SqlAlchemyUrl(p: UrlParts): (url: string)
    ensures |Scheme| <= |url| && url[..|Scheme|] == Scheme
  {
    Scheme + Joined(p.user, ':', Joined(p.password, '@', Joined(p.account, '/', UrlTail(p))))
  }

  /** `{database}/{schema}?role={role}&warehouse={warehouse}`. */
  function UrlTail(p: UrlParts): string
  {
    Joined(p.database, '/', Joined(p.schema, '?', RoleKey + Joined(p.role, '&', WarehouseKey + p.warehouse)))
  }

  /** Reads the parts back at the first of each delimiter, the way a URL parser would. */
  function ParseUrl(url: string): Option<UrlParts>
  {
    match Text.StripPrefix(url, Scheme)
    case None => None
    case Some(s0) =>
      match Text.SplitAt(s0, ':')
      case None => None
      case Some((user, s1)) =>
        match Text.SplitAt(s1, '@')
        case None => None
        case Some((password, s2)) =>
          match Text.SplitAt(s2, '/')
          case None => None
          case Some((account, s3)) =>
            match ParseTail(s3)
            case None => None
            case Some((database, schema, role, warehouse)) =>
              Some(UrlParts(user, password, account, database, schema, role, warehouse))
  }

  /** `{database}/{schema}?role={role}&warehouse={warehouse}`. */
  function ParseTail(s3: string): Option<(string, string, string, string)>
  {
    match Text.SplitAt(s3, '/')
    case None => None
    case Some((database, s4)) =>
      match Text.SplitAt(s4, '?')
      case None => None
      case Some((schema, s5)) =>
        match Text.StripPrefix(s5, RoleKey)
        case None => None
        case Some(s6) =>
          match Text.SplitAt(s6, '&')
          case None => None
          case Some((role, s7)) =>
            match Text.StripPrefix(s7, WarehouseKey)
            case None => None
            case Some(warehouse) => Some((database, schema, role, warehouse))
  }

  /** Parts free of the delimiter that ends them can be read back from the URL. */
  predicate Unambiguous(p: UrlParts)
  {
    ':' !in p.user && '@' !in p.password && '/' !in p.account && '/' !in p.database
    && '?' !in p.schema && '&' !in p.role
  }

  lemma {:induction false} ParseTailRoundTrip(p: UrlParts)
    requires Unambiguous(p)
    ensures ParseTail(UrlTail(p)) == Some((p.database, p.schema, p.role, p.warehouse))
  {
    var s7 := WarehouseKey + p.warehouse;
    var s6 := Joined(p.role, '&', s7);
    var s5 := RoleKey + s6;
    var s4 := Joined(p.schema, '?', s5);
    Text.StripPrefixConcat(WarehouseKey, p.warehouse);
    Text.SplitAtConcat(p.role, '&', s7);
    Text.StripPrefixConcat(RoleKey, s6);
    Text.SplitAtConcat(p.schema, '?', s5);
    Text.SplitAtConcat(p.database, '/', s4);
  }

  /** The URL assembly round-trips for unambiguous parts. */
  lemma {:induction false} UrlRoundTrip(p: UrlParts)
    requires Unambiguous(p)
    ensures ParseUrl(SqlAlchemyUrl(p)) == Some(p)
  {
    ParseTailRoundTrip(p);
    var s2 := Joined(p.account, '/', UrlTail(p));
    var s1 := Joined(p.password, '@', s2);
    var s0 := Joined(p.user, ':', s1);
    Text.StripPrefixConcat(Scheme, s0);
    Text.SplitAtConcat(p.user, ':', s1);
    Text.SplitAtConcat(p.password, '@', s2);
    Text.SplitAtConcat(p.account, '/', UrlTail(p));
  }

  // ------------------------------------------------------------ bi_db.py

  /** bi_db.py:44-52: the role comes from the credential block (QA forces the developer role) and
      QA suffixes the database; the `role` argument itself is never used. */
  function ProdRoleAndDatabase(creds: Credentials, database: string, isQA: bool): (r: (string, string))
    ensures r.0 == if isQA then QaRole else creds.role
    ensures isQA ==> |r.1| == |database| + |QaSuffix| && r.1[..|database|] == database && r.1[|database|..] == QaSuffix
    ensures !isQA ==> r.1 == database
  {
    if isQA then (QaRole, database + QaSuffix) else (creds.role, database)
  }

  /** `sf_pe_prod_connection` of bi_db.py:37-68. */
  function SfPeProdConnection(creds: Credentials, database: string, schema: string, role: string, warehouse: string,
                              sqlAlchemy: bool, isQA: bool): (h: Handle)
    ensures h.Engine? <==> sqlAlchemy
    ensures h.Connector? ==> h.paramstyle == QmarkParamstyle
    ensures h.Connector? ==> h.args.role == ProdRoleAndDatabase(creds, database, isQA).0
    ensures h.Connector? ==> h.args.database == ProdRoleAndDatabase(creds, database, isQA).1
    ensures h.Connector? ==> h.args.schema == schema && h.args.warehouse == warehouse
    ensures h.Connector? ==> h.args.user == creds.user && h.args.password == creds.password && h.args.account == creds.account
  {
    var (r, db) := ProdRoleAndDatabase(creds, database, isQA);
    if sqlAlchemy then Engine(SqlAlchemyUrl(UrlParts(creds.user, creds.password, creds.account, db, schema, r, warehouse)))
    else Connector(Connect(SnowflakeConnection(creds.account, db, schema, creds.user, creds.password, warehouse, r)), QmarkParamstyle)
  }

  /** Whatever `role` the caller passes, the connection is the same. */
  lemma RoleArgumentIgnored(creds: Credentials, database: string, schema: string, role1: string, role2: string,
                            warehouse: string, sqlAlchemy: bool, isQA: bool)
    ensures SfPeProdConnection(creds, database, schema, role1, warehouse, sqlAlchemy, isQA)
            == SfPeProdConnection(creds, database, schema, role2, warehouse, sqlAlchemy, isQA)
  {
  }

  /** The engine's URL carries the same role and database the connector path would use. */
  lemma EngineUrlAgreesWithConnector(creds: Credentials, database: string, schema: string, role: string,
                                     warehouse: string, isQA: bool)
    requires Unambiguous(UrlParts(creds.user, creds.password, creds.account,
                                  ProdRoleAndDatabase(creds, database, isQA).1, schema,
                                  ProdRoleAndDatabase(creds, database, isQA).0, warehouse))
    ensures var args := SfPeProdConnection(creds, database, schema, role, warehouse, false, isQA).args;
            ParseUrl(SfPeProdConnection(creds, database, schema, role, warehouse, true, isQA).url)
            == Some(UrlParts(args.user, args.password, args.account, args.database, args.schema, args.role, args.warehouse))
  {
    var (r, db) := ProdRoleAndDatabase(creds, database, isQA);
    UrlRoundTrip(UrlParts(creds.user, creds.password, creds.account, db, schema, r, warehouse));
  }

  // ------------------------------------------------------------ bi_modules.py

  /** `sf_pe_prod_connection` of bi_modules.py:593-616: the block's role, no QA handling, no URL path. */
  function ModulesPeProdConnection(creds: Credentials, database: string, schema: string, role: string, warehouse: string): (a: ConnectArgs)
    ensures a == SfPeProdConnection(creds, database, schema, role, warehouse, false, false).args
  {
    Connect(SnowflakeConnection(creds.account, database, schema, creds.user, creds.password, warehouse, creds.role))
  }

  /** `sf_cpt_connection` of bi_modules.py:618-639: QA suffixes the database; the `role` argument is kept. */
  function SfCptConnection(user: string, password: string, account: string, database: string, schema: string,
                           role: string, warehouse: string, isQA: bool): (a: ConnectArgs)
    ensures a.role == role
    ensures isQA ==> a.database == database + QaSuffix
    ensures !isQA ==> a.database == database
    ensures a.user == user && a.password == password && a.account == account && a.schema == schema && a.warehouse == warehouse
  {
    var db := if isQA then database + QaSuffix else database;
    Connect(SnowflakeConnection(account, db, schema, user, password, warehouse, role))
  }

  /** `sf_pe_it_connection` of bi_modules.py:642-659: every argument passes through unchanged. */
  function SfPeItConnection(user: string, password: string, account: string, database: string, schema: string,
                            role: string, warehouse: string): (a: ConnectArgs)
    ensures a == ConnectArgs(user, password, account, database, schema, warehouse, role)
  {
    Connect(SnowflakeConnection(account, database, schema, user, password, warehouse, role))
  }

  /** Outside QA the CPT connection is the IT one with another account; in QA only the database differs. */
  lemma CptIsItOutsideQa(user: string, password: string, account: string, database: string, schema: string,
                         role: string, warehouse: string)
    ensures SfCptConnection(user, password, account, database, schema, role, warehouse, false)
            == SfPeItConnection(user, password, account, database, schema, role, warehouse)
    ensures SfCptConnection(user, password, account, database, schema, role, warehouse, true)
            == SfPeItConnection(user, password, account, database + QaSuffix, schema, role, warehouse)
  {
  }
}
