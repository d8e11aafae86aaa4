/**
 * The client entry point (socketio/IO.kt): `IO.socket(uri, options)` picks
 * a manager for the URL's origin, shared or fresh, and asks it for the
 * socket of the URL's namespace.
 *
 * The process-wide manager cache is an explicit registry value, and the URL
 * arrives already parsed into the components the entry point reads.
 * Managers are values, so an outcome says whether its manager is the one
 * cached under the origin's key (whose new value is stored back) or a fresh
 * uncached one.
 */
module IO {
  import opened Common
  import M = Manager
  import S = Socket

  /** The parts of a parsed URL the entry point uses. */
  datatype Url = Url(protocol: string, host: string, port: nat, encodedPath: string, segments: seq<string>)

  /** `IO.Options`: the manager's options with the namespace auth and the two connection-sharing switches. */
  datatype Options = Options(manager: M.Options, auth: Entries<string, string>, forceNew: bool, multiplex: bool)

  type Registry = Entries<string, M.Manager>

  datatype Outcome = Outcome(
    managers: Registry,
    manager: M.Manager,
    socket: S.Socket,
    cachedUnder: Option<string>)      // the cache key when the manager is the cached one, None when fresh and uncached

  /**
   * The cache key: the URL's origin as "protocol://host:port". The digits
   * after the last `:` read back as the port, and what precedes that `:` is
   * the scheme and the host.
   */
  function Key(url: Url): (r: string)
    ensures var d := Decimal(url.port);
            && |r| > |d| && r[|r| - |d| - 1] == ':'
            && DigitsValue(r[|r| - |d|..]) == url.port
            && r[..|r| - |d| - 1] == url.protocol + "://" + url.host
  {
    var origin := url.protocol + "://" + url.host;
    var d := Decimal(url.port);
    DecimalValue(url.port);
    assert (origin + ":" + d)[|origin| + 1..] == d;
    assert (origin + ":" + d)[..|origin|] == origin;
    origin + ":" + d
  }

  /**
   * Two URLs share a cache key exactly when they agree on the port and on
   * the scheme-and-host text: different ports never share a manager.
   */
  lemma KeyDeterminesOrigin(a: Url, b: Url)
    ensures Key(a) == Key(b) <==> a.port == b.port && a.protocol + "://" + a.host == b.protocol + "://" + b.host
  {
    if Key(a) == Key(b) {
      ColonSplit(a.protocol + "://" + a.host, Decimal(a.port), b.protocol + "://" + b.host, Decimal(b.port));
      DecimalInjective(a.port, b.port);
    }
  }

  /** Cutting "x:digits" at its last `:` gives back x and the digits. */
  lemma ColonSplit(x1: string, d1: string, x2: string, d2: string)
    requires forall i :: 0 <= i < |d1| ==> d1[i] != ':'
    requires forall i :: 0 <= i < |d2| ==> d2[i] != ':'
    requires x1 + ":" + d1 == x2 + ":" + d2
    ensures x1 == x2 && d1 == d2
  {
    var r := x1 + ":" + d1;
    assert r == x2 + ":" + d2;
    // the last `:` of r is just before d1 and just before d2
    assert r[|r| - |d1| - 1] == ':' && r[|r| - |d2| - 1] == ':';
    assert forall j :: |r| - |d1| <= j < |r| ==> r[j] == d1[j - (|r| - |d1|)];
    assert forall j :: |r| - |d2| <= j < |r| ==> r[j] == d2[j - (|r| - |d2|)];
    assert d1 == r[|r| - |d1|..] == d2;
    assert x1 == r[..|x1|] == x2;
  }

  /** The namespace asked for: "/" for a URL without path segments, otherwise its encoded path. */
  function Namespace(url: Url): (r: string)
    ensures |url.segments| == 0 ==> r == "/"
    ensures |url.segments| > 0 ==> r == url.encodedPath
  {
    if |url.segments| == 0 then "/" else url.encodedPath
  }

  /** Whether the manager cached for the key already has a socket registered under `nsp`. */
  predicate HasSocket(managers: Registry, key: string, nsp: string)
  {
    var cached: Option<M.Manager> := Lookup(managers, key);
    cached.Some? && Lookup(cached.value.nsps, nsp).Some?
  }

  /**
   * `IO.socket` with the namespace the reuse check looks up as a parameter.
   * A fresh, uncached manager serves the request when `forceNew` is set,
   * multiplexing is off, or the cached manager already has a socket under
   * that namespace; otherwise the cached manager is reused, or created and
   * cached. The manager's constructor rejects a randomization factor
   * outside [0, 1].
   */
  function Connect(managers: Registry, url: Url, opts: Options, checked: string): (r: Result<Outcome>)
    ensures r.Failure? <==> !(0.0 <= opts.manager.randomizationFactor <= 1.0)
                            && (opts.forceNew || !opts.multiplex || HasSocket(managers, Key(url), checked) || Lookup(managers, Key(url)).None?)
    ensures r.Ok? ==> Lookup(r.value.manager.nsps, Namespace(url)) == Some(r.value.socket)
    ensures r.Ok? ==> (r.value.cachedUnder.Some? <==> !opts.forceNew && opts.multiplex && !HasSocket(managers, Key(url), checked))
    ensures r.Ok? && r.value.cachedUnder.None? ==> r.value.managers == managers && r.value.socket == S.New(Namespace(url), opts.auth)
    ensures r.Ok? && r.value.cachedUnder.Some? ==>
              && r.value.cachedUnder.value == Key(url)
              && Lookup(r.value.managers, Key(url)) == Some(r.value.manager)
              && (forall k :: k != Key(url) ==> Lookup(r.value.managers, k) == Lookup(managers, k))
              && (Lookup(managers, Key(url)).Some? ==> r.value.manager == M.SocketFor(Lookup(managers, Key(url)).value, Namespace(url), opts.auth).0)
    ensures r.Ok? && DistinctKeys(managers) ==> DistinctKeys(r.value.managers)
  {
    var key := Key(url);
    var nsp := Namespace(url);
    if opts.forceNew || !opts.multiplex || HasSocket(managers, key, checked) then
      match M.New(opts.manager)
      case Failure(e) => Failure(e)
      case Ok(m) =>
        var (m1, s) := M.SocketFor(m, nsp, opts.auth);
        Ok(Outcome(managers, m1, s, None))
    else
      var cached: Option<M.Manager> := Lookup(managers, key);
      var created := if cached.Some? then Ok(cached.value) else M.New(opts.manager);
      match created
      case Failure(e) => Failure(e)
      case Ok(m) =>
        var (m1, s) := M.SocketFor(m, nsp, opts.auth);
        Ok(Outcome(Put(managers, key, m1), m1, s, Some(key)))
  }

  /** `IO.socket` as written: the reuse check looks up the URL's encoded path. */
  function SocketAsWritten(managers: Registry, url: Url, opts: Options): (r: Result<Outcome>)
    ensures r.Ok? ==> Lookup(r.value.manager.nsps, Namespace(url)) == Some(r.value.socket)
    ensures r.Ok? ==> (r.value.cachedUnder.Some? <==> !opts.forceNew && opts.multiplex && !HasSocket(managers, Key(url), url.encodedPath))
  {
    Connect(managers, url, opts, url.encodedPath)
  }

  /** `IO.socket`, with the reuse check looking up the namespace that is then asked for. */
  function Socket(managers: Registry, url: Url, opts: Options): (r: Result<Outcome>)
    ensures r.Ok? ==> Lookup(r.value.manager.nsps, Namespace(url)) == Some(r.value.socket)
    ensures r.Ok? ==> (r.value.cachedUnder.Some? <==> !opts.forceNew && opts.multiplex && !HasSocket(managers, Key(url), Namespace(url)))
    ensures r.Ok? && DistinctKeys(managers) ==> DistinctKeys(r.value.managers)
  {
    Connect(managers, url, opts, Namespace(url))
  }

  // ---------------------------------------------------------------------------
  // Properties

  /**
   * Every request gets a socket of its own: the corrected entry point never
   * hands out a socket that was already registered, because a manager that
   * has one for the namespace is passed over for a fresh one.
   */
  lemma SocketIsAlwaysNew(managers: Registry, url: Url, opts: Options)
    requires Socket(managers, url, opts).Ok?
    ensures Socket(managers, url, opts).value.socket == S.New(Namespace(url), opts.auth)
  {
    var r := Socket(managers, url, opts).value;
    if r.cachedUnder.Some? {
      var key := Key(url);
      var cached: Option<M.Manager> := Lookup(managers, key);
      if cached.Some? {
        assert Lookup(cached.value.nsps, Namespace(url)).None?;
      }
    }
  }

  /**
   * Two multiplexed requests for the root namespace of a URL without a path
   * go to the same manager, and the second is handed the socket the first
   * registered; the corrected entry point gives the second a fresh manager.
   */
  lemma RootSocketSharedAsWritten(url: Url, opts: Options)
    requires url.encodedPath == "" && url.segments == []
    requires !opts.forceNew && opts.multiplex && 0.0 <= opts.manager.randomizationFactor <= 1.0
    ensures var first := SocketAsWritten([], url, opts);
            && first.Ok?
            && var second := SocketAsWritten(first.value.managers, url, opts);
               && second.Ok?
               && second.value.cachedUnder == Some(Key(url))
               && second.value.manager == first.value.manager
               && second.value.socket == first.value.socket
    ensures var first := Socket([], url, opts);
            && first.Ok?
            && var second := Socket(first.value.managers, url, opts);
               && second.Ok?
               && second.value.cachedUnder.None?
               && second.value.managers == first.value.managers
  {
    var key := Key(url);
    var first := SocketAsWritten([], url, opts).value;
    assert first.cachedUnder == Some(key);
    assert first.managers == [(key, first.manager)];
    assert Lookup(first.manager.nsps, "").None? by {
      assert Lookup(M.New(opts.manager).value.nsps, "").None?;
      assert first.manager.nsps == Put([], "/", first.socket);
    }
    var fixed := Socket([], url, opts).value;
    assert fixed.managers == [(key, fixed.manager)];
    assert HasSocket(fixed.managers, key, "/");
  }
}
