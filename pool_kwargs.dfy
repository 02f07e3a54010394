/**
 * Keyword arguments for the download process pools: the caller's kwargs laid
 * over a set of defaults, and the two session keys every downloader adds.
 */
module PoolKwargs {
  import opened Common
  import opened PyDict

  /** A pool keyword's value: counts, flags, a base url, or a callable by name. */
  datatype KwVal = IntArg(n: int) | BoolArg(flag: bool) | StrArg(text: string) | Callable(name: string)

  /** The keyword names the pools are given; any other name is kept as text. */
  datatype Kw =
    | Processes | ChildConcurrency | QueueCount | MaxTasksPerChild
    | ExceptionHandler | LoopInitializer | InitClientSession | SessionBaseUrl
    | OtherKw(name: string)
  {
    /** The keyword as written in the call. */
    function Name(): string
    {
      match this
      case Processes => "processes"
      case ChildConcurrency => "childconcurrency"
      case QueueCount => "queuecount"
      case MaxTasksPerChild => "maxtasksperchild"
      case ExceptionHandler => "exception_handler"
      case LoopInitializer => "loop_initializer"
      case InitClientSession => "init_client_session"
      case SessionBaseUrl => "session_base_url"
      case OtherKw(name) => name
    }
  }

  type Kwargs = Dict<Kw, KwVal>

  /**
   * pool_kwarg_config: a copy of the defaults updated with the caller's kwargs.
   * The defaults are a value here, so the caller cannot see them change.
   */
  function PoolKwargConfig(defaults: Kwargs, kwargs: Kwargs): (config: Kwargs)
    requires Wf(defaults) && Wf(kwargs)
    ensures Wf(config)
    ensures config.entries.Keys == defaults.entries.Keys + kwargs.entries.Keys
    ensures forall k :: k in kwargs.entries ==> config.entries[k] == kwargs.entries[k]
    ensures forall k :: k in defaults.entries && k !in kwargs.entries ==> config.entries[k] == defaults.entries[k]
    ensures defaults.keys <= config.keys
  {
    UpdateSemantics(defaults, kwargs);
    Update(defaults, kwargs)
  }

  /** The first key of `ks` that `d` already holds. */
  function FirstShared(ks: seq<Kw>, d: Kwargs): (r: Option<Kw>)
    ensures r.None? <==> forall i :: 0 <= i < |ks| ==> ks[i] !in d.entries
    ensures r.Some? ==> r.value in ks && r.value in d.entries
  {
    if ks == [] then None
    else if ks[0] in d.entries then Some(ks[0])
    else FirstShared(ks[1..], d)
  }

  /** `dict(**a, **b)`: a TypeError on a keyword given twice, else `a`'s keys followed by `b`'s. */
  function UnpackTwo(a: Kwargs, b: Kwargs): (r: Result<Kwargs>)
    requires Wf(a) && Wf(b)
    ensures r.Err? <==> a.entries.Keys * b.entries.Keys != {}
    ensures r.Err? ==> exists k :: k in a.entries && k in b.entries && r.error == DuplicateKeyword(k.Name())
    ensures r.Ok? ==> Wf(r.value) && r.value.keys == a.keys + b.keys && r.value.entries == a.entries + b.entries
  {
    match FirstShared(b.keys, a)
    case Some(k) =>
      assert k in a.entries.Keys * b.entries.Keys;
      Err(DuplicateKeyword(k.Name()))
    case None =>
      assert a.entries.Keys * b.entries.Keys == {} by {
        forall k | k in b.entries ensures k !in a.entries {
          var i :| 0 <= i < |b.keys| && b.keys[i] == k;
        }
      }
      var d := Dict(a.keys + b.keys, a.entries + b.entries);
      assert d.entries.Keys == set k | k in d.keys;
      Ok(d)
  }

  /** `{"init_client_session": True, "session_base_url": base_url}`. */
  function SessionKwargs(baseUrl: string): (s: Kwargs)
    ensures Wf(s)
    ensures s.entries.Keys == {InitClientSession, SessionBaseUrl}
  {
    Dict([InitClientSession, SessionBaseUrl],
         map[InitClientSession := BoolArg(true), SessionBaseUrl := StrArg(baseUrl)])
  }

  /**
   * The pool config every downloader builds: the session keys added to the
   * caller's kwargs with `dict(**pool_kwargs, **{...})`, then laid over the defaults.
   */
  function SessionPoolConfig(defaults: Kwargs, poolKwargs: Kwargs, baseUrl: string): (r: Result<Kwargs>)
    requires Wf(defaults) && Wf(poolKwargs)
    ensures r.Err? <==> InitClientSession in poolKwargs.entries || SessionBaseUrl in poolKwargs.entries
    ensures r.Err? ==> r.error.DuplicateKeyword?
    ensures r.Ok? ==> Wf(r.value)
    ensures r.Ok? ==> r.value.entries.Keys == defaults.entries.Keys + poolKwargs.entries.Keys + {InitClientSession, SessionBaseUrl}
    ensures r.Ok? ==> r.value.entries[InitClientSession] == BoolArg(true)
    ensures r.Ok? ==> r.value.entries[SessionBaseUrl] == StrArg(baseUrl)
    ensures r.Ok? ==> forall k :: k in poolKwargs.entries ==> r.value.entries[k] == poolKwargs.entries[k]
    ensures r.Ok? ==> forall k :: k in defaults.entries && k !in poolKwargs.entries && k != InitClientSession && k != SessionBaseUrl
                        ==> r.value.entries[k] == defaults.entries[k]
  {
    SessionClash(poolKwargs, baseUrl);
    match UnpackTwo(poolKwargs, SessionKwargs(baseUrl))
    case Err(e) => Err(e)
    case Ok(merged) =>
      var config := PoolKwargConfig(defaults, merged);
      assert poolKwargs.entries.Keys !! {InitClientSession, SessionBaseUrl};
      SessionConfigFacts(defaults.entries, poolKwargs.entries, baseUrl, merged.entries, config.entries);
      Ok(config)
  }

  /** The session keys clash with the caller's kwargs exactly when the caller already set one of them. */
  lemma SessionClash(poolKwargs: Kwargs, baseUrl: string)
    ensures poolKwargs.entries.Keys * SessionKwargs(baseUrl).entries.Keys != {}
        <==> InitClientSession in poolKwargs.entries || SessionBaseUrl in poolKwargs.entries
  {
    var both := poolKwargs.entries.Keys * SessionKwargs(baseUrl).entries.Keys;
    if both != {} {
      var x :| x in both;
      assert x == InitClientSession || x == SessionBaseUrl;
    }
    if InitClientSession in poolKwargs.entries {
      assert InitClientSession in both;
    }
    if SessionBaseUrl in poolKwargs.entries {
      assert SessionBaseUrl in both;
    }
  }

  /** What the successful branch of SessionPoolConfig builds, on the underlying maps. */
  lemma SessionConfigFacts(defaults: map<Kw, KwVal>, poolKwargs: map<Kw, KwVal>, baseUrl: string,
                           merged: map<Kw, KwVal>, config: map<Kw, KwVal>)
    requires poolKwargs.Keys !! {InitClientSession, SessionBaseUrl}
    requires merged == poolKwargs + map[InitClientSession := BoolArg(true), SessionBaseUrl := StrArg(baseUrl)]
    requires config.Keys == defaults.Keys + merged.Keys
    requires forall k :: k in merged ==> config[k] == merged[k]
    requires forall k :: k in defaults && k !in merged ==> config[k] == defaults[k]
    ensures config.Keys == defaults.Keys + poolKwargs.Keys + {InitClientSession, SessionBaseUrl}
    ensures config[InitClientSession] == BoolArg(true)
    ensures config[SessionBaseUrl] == StrArg(baseUrl)
    ensures forall k :: k in poolKwargs ==> config[k] == poolKwargs[k]
    ensures forall k :: k in defaults && k !in poolKwargs && k != InitClientSession && k != SessionBaseUrl
              ==> config[k] == defaults[k]
  {
    assert merged.Keys == poolKwargs.Keys + {InitClientSession, SessionBaseUrl};
  }
}
