/**
 * internal/cli/config/mysql/v1/mysql.go: turning the MySQL options into a
 * driver configuration and applying the connection-pool limits.
 */
module MySQL {
  import opened Text

  /** MySQLOptions, as read from the configuration resource. */
  datatype MySQLOptions = MySQLOptions(
    host: string, port: string, database: string, username: string, password: string,
    maxOpen: int, maxIdle: int, params: seq<string>)

  /** The driver configuration fields this package sets. */
  datatype Config = Config(user: string, passwd: string, net: string, addr: string, dbName: string,
                           params: map<string, string>)

  /** Every parameter has the `key=value` form the parser indexes into. */
  predicate WellFormed(params: seq<string>)
  {
    forall i :: 0 <= i < |params| ==> '=' in params[i]
  }

  /** The key of a parameter: the text before its first '='. */
  function Key(param: string): string
    requires '=' in param
  {
    SplitN2(param, '=')[0]
  }

  /** The value of a parameter: everything after its first '=', further '=' included. */
  function Val(param: string): string
    requires '=' in param
  {
    SplitN2(param, '=')[1]
  }

  /** The parameter map: parameters in order, each one overwriting its key. */
  function ParamsMap(params: seq<string>): (m: map<string, string>)
    requires WellFormed(params)
    ensures |params| == 0 ==> m == map[]
    ensures |params| > 0 ==> Key(params[|params| - 1]) in m && m[Key(params[|params| - 1])] == Val(params[|params| - 1])
  {
    if |params| == 0 then map[]
    else
      var p := params[|params| - 1];
      ParamsMap(params[..|params| - 1])[Key(p) := Val(p)]
  }

  /** The parsing loop of New: one SplitN(param, "=", 2) per parameter. */
  method ParseParams(params: seq<string>) returns (m: map<string, string>)
    requires WellFormed(params)
    ensures m == ParamsMap(params)
  {
    m := map[];
    for i := 0 to |params|
      invariant m == ParamsMap(params[..i])
    {
      var kv := SplitN2(params[i], '=');
      assert params[..i + 1][..i] == params[..i];
      m := m[kv[0] := kv[1]];
    }
    assert params[..|params|] == params;
  }

  /** A parameter is its key, '=', and its value, and the key holds no '='. */
  lemma SplitRoundTrip(param: string)
    requires '=' in param
    ensures Key(param) + "=" + Val(param) == param
    ensures '=' !in Key(param)
  {
  }

  /** Every key in the map comes from some parameter... */
  lemma {:induction false} MapKeyFromParam(params: seq<string>, k: string)
    requires WellFormed(params) && k in ParamsMap(params)
    ensures exists i :: 0 <= i < |params| && Key(params[i]) == k
  {
    var n := |params| - 1;
    var init := params[..n];
    assert forall i :: 0 <= i < n ==> init[i] == params[i];
    if k != Key(params[n]) {
      MapKeyFromParam(init, k);
      var i :| 0 <= i < n && Key(init[i]) == k;
      assert Key(params[i]) == k;
    }
  }

  /** ...and every parameter's key is in the map. */
  lemma {:induction false} ParamKeyInMap(params: seq<string>, i: nat)
    requires WellFormed(params) && i < |params|
    ensures Key(params[i]) in ParamsMap(params)
  {
    var n := |params| - 1;
    if i < n {
      var init := params[..n];
      assert init[i] == params[i];
      assert forall j :: 0 <= j < n ==> init[j] == params[j];
      ParamKeyInMap(init, i);
    }
  }

  /** A key keeps the value of its last occurrence: later duplicates overwrite earlier ones. */
  lemma {:induction false} LastOccurrenceWins(params: seq<string>, i: nat)
    requires WellFormed(params) && i < |params|
    requires forall j :: i < j < |params| ==> Key(params[j]) != Key(params[i])
    ensures Key(params[i]) in ParamsMap(params)
    ensures ParamsMap(params)[Key(params[i])] == Val(params[i])
  {
    var init := params[..|params| - 1];
    if i < |params| - 1 {
      assert forall j :: 0 <= j < |init| ==> init[j] == params[j];
      LastOccurrenceWins(init, i);
    }
  }

  /** The driver's host:port address. */
  function Addr(host: string, port: string): (addr: string)
    ensures |addr| == |host| + 1 + |port| && addr[|host|] == ':'
  {
    host + ":" + port
  }

  /** A host without ':' is recovered, with the port, by splitting the address at its first ':'. */
  lemma AddrSplits(host: string, port: string)
    requires ':' !in host
    ensures SplitN2(Addr(host, port), ':') == [host, port]
  {
    var a := Addr(host, port);
    var parts := SplitN2(a, ':');
    assert a[|host|] == ':';
    assert |parts| == 2 && parts[0] + [':'] + parts[1] == a && ':' !in parts[0];
    assert parts[0] == a[..|host|] == host;
    assert parts[1] == a[|host| + 1..] == port;
  }

  /** The configuration New builds: user, password, TCP, host:port, database and parameters. */
  function ConfigOf(opts: MySQLOptions): Config
    requires WellFormed(opts.params)
  {
    Config(opts.username, opts.password, "tcp", Addr(opts.host, opts.port), opts.database, ParamsMap(opts.params))
  }

  /** The pool limits of an opened database handle. */
  class Pool {
    var maxOpen: int
    var maxIdle: int

    constructor (maxOpen: int, maxIdle: int)
      ensures this.maxOpen == maxOpen && this.maxIdle == maxIdle
    {
      this.maxOpen := maxOpen;
      this.maxIdle := maxIdle;
    }

    method SetMaxOpenConns(n: int)
      modifies this
      ensures maxOpen == n && maxIdle == old(maxIdle)
    {
      maxOpen := n;
    }

    method SetMaxIdleConns(n: int)
      modifies this
      ensures maxIdle == n && maxOpen == old(maxOpen)
    {
      maxIdle := n;
    }
  }

  /** The limit a configured value leaves in place: only a positive value replaces the current one. */
  function Limit(configured: int, current: int): (l: int)
    ensures configured > 0 ==> l == configured
    ensures configured <= 0 ==> l == current
  {
    if configured > 0 then configured else current
  }

  /**
   * New, after the options are read and the handle opened: the parameter loop,
   * the configuration, and the pool limits applied only when positive.
   */
  method New(opts: MySQLOptions, db: Pool) returns (c: Config)
    requires WellFormed(opts.params)
    modifies db
    ensures c == ConfigOf(opts)
    ensures db.maxOpen == Limit(opts.maxOpen, old(db.maxOpen))
    ensures db.maxIdle == Limit(opts.maxIdle, old(db.maxIdle))
  {
    var params := ParseParams(opts.params);
    c := Config(opts.username, opts.password, "tcp", opts.host + ":" + opts.port, opts.database, params);
    if opts.maxOpen > 0 {
      db.SetMaxOpenConns(opts.maxOpen);
    }
    if opts.maxIdle > 0 {
      db.SetMaxIdleConns(opts.maxIdle);
    }
  }
}
