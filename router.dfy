/**
 * `router.go`: routes bucketed by update kind, first-match dispatch with
 * default, error and panic handlers, middleware composition and groups.
 */
module Routing {
  import opened Wrappers
  import opened GoStrings
  import opened Types
  import opened Filters

  /** The bucket an update falls into (`handleOn...`); deriving it from the update is generated code outside this model. */
  datatype Kind = OnMessage | OnCallbackQuery | OnOther(index: nat)

  /** Application code is opaque: a handler or middleware is known by its identity only. */
  datatype Middleware = Middleware(id: nat)

  /** A `HandlerFunc`: an application handler, possibly wrapped by middleware (outermost first). */
  datatype Handler = Base(id: nat) | Wrapped(mw: Middleware, next: Handler)

  datatype ErrHandler = ErrHandler(id: nat)
  datatype PanicHandler = PanicHandler(id: nat)
  datatype HandlerError = HandlerError(text: string)
  datatype PanicValue = PanicValue(text: string)

  /** What running a handler did: returned an error or nil, or panicked. */
  datatype Outcome = Returned(err: Option<HandlerError>) | Panicked(value: PanicValue)

  /**
   * What one `Process` call did: which handler ran, the error passed to the
   * error handler, the value passed to the panic handler, and a panic that
   * escaped to the caller because no panic handler was set.
   */
  datatype Dispatch = Dispatch(ran: Option<Handler>, reportedErr: Option<HandlerError>,
                               reportedPanic: Option<PanicValue>, escaped: Option<PanicValue>)

  const NothingRan: Dispatch := Dispatch(None, None, None, None)

  datatype Route = Route(filter: Filter, handler: Handler)

  /** The first route, in registration order, whose filter holds. */
  function FirstMatch(routes: seq<Route>, v: View): (r: Option<nat>)
    ensures r.Some? ==> r.value < |routes| && routes[r.value].filter(v)
    ensures r.Some? ==> forall j :: 0 <= j < r.value ==> !routes[j].filter(v)
    ensures r.None? ==> forall j :: 0 <= j < |routes| ==> !routes[j].filter(v)
  {
    if routes == [] then None
    else if routes[0].filter(v) then Some(0)
    else
      var rest := FirstMatch(routes[1..], v);
      assert forall j :: 1 <= j < |routes| ==> routes[1..][j - 1] == routes[j];
      if rest.Some? then Some(rest.value + 1) else None
  }

  /** The error rule after one handler ran: an error goes to the error handler if one is set, a panic to the panic handler if one is set. */
  function Settle(h: Handler, o: Outcome, hasErr: bool, hasPanic: bool): Dispatch {
    match o
    case Returned(err) => Dispatch(Some(h), if hasErr then err else None, None, None)
    case Panicked(p) => Dispatch(Some(h), None, if hasPanic then Some(p) else None, if hasPanic then None else Some(p))
  }

  /** What `Process` does with a bucket of routes. */
  function Expected(routes: seq<Route>, default: Option<Handler>, hasErr: bool, hasPanic: bool,
                    v: View, run: (Handler, View) -> Outcome): Dispatch {
    var m := FirstMatch(routes, v);
    if m.Some? then Settle(routes[m.value].handler, run(routes[m.value].handler, v), hasErr, hasPanic)
    else if default.Some? then Settle(default.value, run(default.value, v), hasErr, hasPanic)
    else NothingRan
  }

  /**
   * The dispatch rules: the first matching route runs, else the default
   * handler if set, else nothing; at most one handler runs; its error
   * reaches the error handler exactly when it is non-nil and an error
   * handler is set; its panic goes to the panic handler if set and escapes
   * otherwise.
   */
  lemma DispatchRules(routes: seq<Route>, default: Option<Handler>, hasErr: bool, hasPanic: bool,
                      v: View, run: (Handler, View) -> Outcome)
    ensures var d := Expected(routes, default, hasErr, hasPanic, v, run);
      && (d.ran.Some? <==> (exists i :: 0 <= i < |routes| && routes[i].filter(v)) || default.Some?)
      && (forall i :: 0 <= i < |routes| && routes[i].filter(v) && (forall j :: 0 <= j < i ==> !routes[j].filter(v))
            ==> d.ran == Some(routes[i].handler))
      && ((forall i :: 0 <= i < |routes| ==> !routes[i].filter(v)) ==> d.ran == default)
      && (d.ran.None? ==> d == NothingRan)
      && (d.ran.Some? ==> (d.reportedErr.Some? <==> hasErr && run(d.ran.value, v).Returned? && run(d.ran.value, v).err.Some?))
      && (d.reportedErr.Some? ==> d.reportedErr == run(d.ran.value, v).err)
      && (d.ran.Some? ==> (d.reportedPanic.Some? || d.escaped.Some? <==> run(d.ran.value, v).Panicked?))
      && (d.reportedPanic.Some? ==> hasPanic) && (d.escaped.Some? ==> !hasPanic)
  {
    var m := FirstMatch(routes, v);
    if m.Some? {
      assert routes[m.value].filter(v);
    }
  }

  /** `slices.Backward` wrapping: the first middleware ends up outermost. */
  function Wrap(ms: seq<Middleware>, h: Handler): Handler {
    if ms == [] then h else Wrapped(ms[0], Wrap(ms[1..], h))
  }

  /** The middleware layers of a handler, outermost first. */
  function Layers(h: Handler): seq<Middleware> {
    match h
    case Base(_) => []
    case Wrapped(m, next) => [m] + Layers(next)
  }

  /** The application handler at the centre. */
  function Core(h: Handler): nat {
    match h
    case Base(id) => id
    case Wrapped(_, next) => Core(next)
  }

  /** Wrapping puts the middleware around the handler in registration order, outermost first, and keeps the handler itself. */
  lemma {:induction false} WrapLayers(ms: seq<Middleware>, h: Handler)
    ensures Layers(Wrap(ms, h)) == ms + Layers(h)
    ensures Core(Wrap(ms, h)) == Core(h)
  {
    if ms != [] {
      WrapLayers(ms[1..], h);
      assert [ms[0]] + (ms[1..] + Layers(h)) == ms + Layers(h);
    }
  }

  /** Middleware added later sits inside the middleware added earlier. */
  lemma {:induction false} WrapAppend(ms1: seq<Middleware>, ms2: seq<Middleware>, h: Handler)
    ensures Wrap(ms1 + ms2, h) == Wrap(ms1, Wrap(ms2, h))
  {
    if ms1 != [] {
      assert (ms1 + ms2)[1..] == ms1[1..] + ms2;
      WrapAppend(ms1[1..], ms2, h);
    } else {
      assert ms1 + ms2 == ms2;
    }
  }

  /** Every filter holds, evaluated in order with short-circuit. */
  predicate AllHold(filters: seq<Filter>, v: View) {
    filters == [] || (filters[0](v) && AllHold(filters[1..], v))
  }

  lemma {:induction false} AllHoldSpec(filters: seq<Filter>, v: View)
    ensures AllHold(filters, v) <==> forall i :: 0 <= i < |filters| ==> filters[i](v)
  {
    if filters != [] {
      AllHoldSpec(filters[1..], v);
      assert forall i :: 1 <= i < |filters| ==> filters[1..][i - 1] == filters[i];
    }
  }

  /** The filter `Group` builds: the parent's filter, then each given filter. */
  function Combined(parent: Filter, filters: seq<Filter>): (f: Filter)
    ensures forall v :: f(v) <==> parent(v) && forall i :: 0 <= i < |filters| ==> filters[i](v)
  {
    var f := (v: View) => parent(v) && AllHold(filters, v);
    assert forall v :: AllHold(filters, v) <==> forall i :: 0 <= i < |filters| ==> filters[i](v) by {
      forall v { AllHoldSpec(filters, v); }
    }
    f
  }

  /** The filter of the root group. `NewRouter` leaves it nil; this model uses the always-true filter instead. */
  const AlwaysTrue: Filter := (v: View) => true

  /** The root group's filter as `NewRouter` leaves it: nil. */
  const RootFilterAsWritten: Option<Filter> := None

  /** `Group`'s filter as written, over a parent filter that may be nil: calling a nil filter panics (`None`). */
  function CombinedAsWritten(parent: Option<Filter>, filters: seq<Filter>): View -> Option<bool> {
    (v: View) => if parent.None? then None else Some(parent.value(v) && AllHold(filters, v))
  }

  /** As written, every filter built by `Group` on the root group panics, whatever the update and the given filters. */
  lemma RootGroupFilterPanics(filters: seq<Filter>, v: View)
    ensures CombinedAsWritten(RootFilterAsWritten, filters)(v) == None
  {
  }

  /** With the always-true root filter, a group of the root router admits exactly the updates all its own filters admit. */
  lemma RootGroupFilter(filters: seq<Filter>, v: View)
    ensures Combined(AlwaysTrue, filters)(v) <==> forall i :: 0 <= i < |filters| ==> filters[i](v)
  {
  }

  class Router {
    var handlersOn: map<Kind, seq<Route>>
    var handlerDefault: Option<Handler>
    var handlerErr: Option<ErrHandler>
    var handlerPanic: Option<PanicHandler>
    /** The embedded `*RouterGroup`. */
    var root: RouterGroup

    ghost predicate Valid()
      reads this, root
    {
      root.router == this
    }

    /**
     * `NewRouter`: no routes, no handlers, a root group without middleware.
     * The root filter is the always-true one `RootGroupFilter` is proved
     * about, where the Go code leaves it nil (see `RootGroupFilterPanics`).
     */
    constructor ()
      ensures Valid() && fresh(root)
      ensures handlersOn == map[] && handlerDefault == None && handlerErr == None && handlerPanic == None
      ensures root.middlewares == [] && root.filter == AlwaysTrue
    {
      handlersOn := map[];
      handlerDefault := None;
      handlerErr := None;
      handlerPanic := None;
      root := new RouterGroup(null, AlwaysTrue, []);
      new;
      root.router := this;
    }

    /** The routes of one kind, in registration order. */
    function Bucket(kind: Kind): seq<Route>
      reads this
    {
      if kind in handlersOn then handlersOn[kind] else []
    }

    /** `Process`: scan the bucket in order, run the first route whose filter holds, else the default; settle errors and panics. */
    method Process(v: View, kind: Kind, run: (Handler, View) -> Outcome) returns (d: Dispatch)
      ensures d == Expected(Bucket(kind), handlerDefault, handlerErr.Some?, handlerPanic.Some?, v, run)
    {
      var routes := Bucket(kind);
      for i := 0 to |routes|
        invariant forall j :: 0 <= j < i ==> !routes[j].filter(v)
      {
        if routes[i].filter(v) {
          d := Settle(routes[i].handler, run(routes[i].handler, v), handlerErr.Some?, handlerPanic.Some?);
          return;
        }
      }
      if handlerDefault.Some? {
        d := Settle(handlerDefault.value, run(handlerDefault.value, v), handlerErr.Some?, handlerPanic.Some?);
      } else {
        d := NothingRan;
      }
    }

    /** `Router.Use`: appends to the root group's middleware. */
    method Use(funcs: seq<Middleware>)
      modifies root
      ensures root.middlewares == old(root.middlewares) + funcs
      ensures root.filter == old(root.filter) && root.router == old(root.router)
    {
      root.Use(funcs);
    }

    method SetHandlerDefault(handler: Option<Handler>)
      modifies this
      ensures handlerDefault == handler
      ensures handlersOn == old(handlersOn) && handlerErr == old(handlerErr) && handlerPanic == old(handlerPanic) && root == old(root)
    {
      handlerDefault := handler;
    }

    method SetHandlerErr(handler: Option<ErrHandler>)
      modifies this
      ensures handlerErr == handler
      ensures handlersOn == old(handlersOn) && handlerDefault == old(handlerDefault) && handlerPanic == old(handlerPanic) && root == old(root)
    {
      handlerErr := handler;
    }

    method SetHandlerPanic(handler: Option<PanicHandler>)
      modifies this
      ensures handlerPanic == handler
      ensures handlersOn == old(handlersOn) && handlerDefault == old(handlerDefault) && handlerErr == old(handlerErr) && root == old(root)
    {
      handlerPanic := handler;
    }

    /** `HandleKeyboardButton`: a message route whose text must equal the button's. */
    method HandleKeyboardButton(b: KeyboardButton, handler: Handler)
      requires Valid()
      modifies this
      ensures Valid() && root == old(root)
      ensures handlersOn.Keys == old(handlersOn).Keys + {OnMessage}
      ensures forall k :: k != OnMessage && k in old(handlersOn) ==> handlersOn[k] == old(handlersOn)[k]
      ensures |Bucket(OnMessage)| == |old(Bucket(OnMessage))| + 1
      ensures Bucket(OnMessage)[..|old(Bucket(OnMessage))|] == old(Bucket(OnMessage))
      ensures var r := Bucket(OnMessage)[|old(Bucket(OnMessage))|];
        r.handler == Wrap(root.middlewares, handler)
        && forall v :: r.filter(v) <==> root.filter(v) && v.text == b.text
    {
      var fs := [FilterText(b.text)];
      root.Handle(OnMessage, handler, fs);
      var r := Bucket(OnMessage)[|old(Bucket(OnMessage))|];
      forall v ensures r.filter(v) <==> root.filter(v) && v.text == b.text {
        assert (forall i :: 0 <= i < |fs| ==> fs[i](v)) <==> fs[0](v);
      }
    }

    /** `HandleInlineKeyboardButton`: a callback-query route for the button's data, exactly or before the first space. */
    method HandleInlineKeyboardButton(b: InlineKeyboardButton, handler: Handler)
      requires Valid()
      modifies this
      ensures Valid() && root == old(root)
      ensures handlersOn.Keys == old(handlersOn).Keys + {OnCallbackQuery}
      ensures forall k :: k != OnCallbackQuery && k in old(handlersOn) ==> handlersOn[k] == old(handlersOn)[k]
      ensures |Bucket(OnCallbackQuery)| == |old(Bucket(OnCallbackQuery))| + 1
      ensures Bucket(OnCallbackQuery)[..|old(Bucket(OnCallbackQuery))|] == old(Bucket(OnCallbackQuery))
      ensures var r := Bucket(OnCallbackQuery)[|old(Bucket(OnCallbackQuery))|];
        r.handler == Wrap(root.middlewares, handler)
        && forall v :: r.filter(v) <==> root.filter(v) && InlineButtonFilter(b)(v)
    {
      var fs := [InlineButtonFilter(b)];
      root.Handle(OnCallbackQuery, handler, fs);
      var r := Bucket(OnCallbackQuery)[|old(Bucket(OnCallbackQuery))|];
      forall v ensures r.filter(v) <==> root.filter(v) && InlineButtonFilter(b)(v) {
        assert (forall i :: 0 <= i < |fs| ==> fs[i](v)) <==> fs[0](v);
      }
    }
  }

  class RouterGroup {
    var router: Router?
    var filter: Filter
    var middlewares: seq<Middleware>

    constructor (router: Router?, filter: Filter, middlewares: seq<Middleware>)
      ensures this.router == router && this.filter == filter && this.middlewares == middlewares
    {
      this.router := router;
      this.filter := filter;
      this.middlewares := middlewares;
    }

    /** `applyMiddlewares`: wraps from the last middleware to the first, so the first is outermost. */
    method ApplyMiddlewares(handler: Handler) returns (h: Handler)
      ensures h == Wrap(middlewares, handler)
    {
      h := handler;
      var i := |middlewares|;
      while i > 0
        invariant 0 <= i <= |middlewares|
        invariant h == Wrap(middlewares[i..], handler)
      {
        i := i - 1;
        assert middlewares[i..][1..] == middlewares[i + 1..];
        h := Wrapped(middlewares[i], h);
      }
    }

    /** `RouterGroup.Use`: appends, keeping the existing order. */
    method Use(funcs: seq<Middleware>)
      modifies this
      ensures middlewares == old(middlewares) + funcs
      ensures filter == old(filter) && router == old(router)
    {
      middlewares := middlewares + funcs;
    }

    /** `Group`: a new group of the same router, with this group's middleware as it is now and the conjunction of the filters. */
    method Group(filters: seq<Filter>) returns (g: RouterGroup)
      ensures fresh(g) && g.router == router && g.middlewares == middlewares
      ensures forall v :: g.filter(v) <==> filter(v) && forall i :: 0 <= i < |filters| ==> filters[i](v)
    {
      g := new RouterGroup(router, Combined(filter, filters), middlewares);
    }

    /**
     * Registration of a route in this group, the step the generated
     * `HandleOn...` methods share: the route's filter is this group's filter
     * and the given ones, its handler is wrapped in this group's middleware,
     * and it goes to the end of its bucket.
     */
    method Handle(kind: Kind, handler: Handler, filters: seq<Filter>)
      requires router != null
      modifies router
      ensures router.root == old(router.root)
      ensures router.handlerDefault == old(router.handlerDefault) && router.handlerErr == old(router.handlerErr)
      ensures router.handlerPanic == old(router.handlerPanic)
      ensures router.handlersOn.Keys == old(router.handlersOn).Keys + {kind}
      ensures forall k :: k != kind && k in old(router.handlersOn) ==> router.handlersOn[k] == old(router.handlersOn)[k]
      ensures |router.Bucket(kind)| == |old(router.Bucket(kind))| + 1
      ensures router.Bucket(kind)[..|old(router.Bucket(kind))|] == old(router.Bucket(kind))
      ensures var r := router.Bucket(kind)[|old(router.Bucket(kind))|];
        r.handler == Wrap(middlewares, handler)
        && forall v :: r.filter(v) <==> filter(v) && forall i :: 0 <= i < |filters| ==> filters[i](v)
    {
      var h := ApplyMiddlewares(handler);
      var route := Route(Combined(filter, filters), h);
      var bucket := router.Bucket(kind);
      router.handlersOn := router.handlersOn[kind := bucket + [route]];
      assert router.Bucket(kind) == bucket + [route];
    }
  }
}
