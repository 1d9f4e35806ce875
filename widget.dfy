/**
 * The `<ntop-widget>` controller (src/components/ntop-widget/ntop-widget.tsx):
 * it serialises its `<ntop-datasource>` children into a request, keeps the
 * last fetched response, polls when `update >= 0`, and drives its formatter
 * so that `init` runs until it first returns and `update` runs on every
 * render with data from then on.
 */
module Widget {
  import opened Js
  import opened Types

  // ---------------------------------------------------------------------
  // serializeDatasources.
  // ---------------------------------------------------------------------

  /** An attribute of an `<ntop-datasource>` element. */
  datatype Attribute = Attribute(name: string, value: string)

  /** An `<ntop-datasource>` child: its `type` property and its attributes in document order. */
  datatype DatasourceElement = DatasourceElement(dsType: string, attributes: seq<Attribute>)

  /** The marker that turns an attribute into a request parameter. */
  function ParamsPrefix(): string { "params-" }

  predicate StartsWith(s: string, prefix: string)
  {
    |prefix| <= |s| && s[..|prefix|] == prefix
  }

  /** `s.replace(pattern, replacement)` with a string pattern: only the first occurrence is replaced. */
  function ReplaceFirst(s: string, pattern: string, replacement: string): string
    requires |pattern| > 0
  {
    if |s| < |pattern| then s
    else if s[..|pattern|] == pattern then replacement + s[|pattern|..]
    else [s[0]] + ReplaceFirst(s[1..], pattern, replacement)
  }

  /** The parameter key of an attribute: its name with the first "params-" removed. */
  function ParamKey(a: Attribute): string
  {
    ReplaceFirst(a.name, ParamsPrefix(), "")
  }

  /**
   * The one key an object literal does not store: assigning a string to
   * `__proto__` goes to the inherited prototype setter, which ignores it.
   */
  function ProtoKey(): string { "__proto__" }

  /** `params[key] = value` on the object literal `params`. */
  function SetParam(params: map<string, string>, key: string, value: string): map<string, string>
  {
    if key == ProtoKey() then params else params[key := value]
  }

  /** The parameter map filled from `attrs`, attribute by attribute. */
  function ParamsOf(attrs: seq<Attribute>): map<string, string>
  {
    if attrs == [] then map[]
    else
      var params := ParamsOf(attrs[..|attrs| - 1]);
      var a := attrs[|attrs| - 1];
      if StartsWith(a.name, ParamsPrefix()) then SetParam(params, ParamKey(a), a.value) else params
  }

  /** The request datasource an element serialises to. */
  function DatasourceOf(e: DatasourceElement): Datasource
  {
    Datasource(e.dsType, ParamsOf(e.attributes))
  }

  /** For an attribute that starts with "params-", the key is the rest of its name. */
  lemma ParamKeyStripsPrefix(a: Attribute)
    requires StartsWith(a.name, ParamsPrefix())
    ensures ParamKey(a) == a.name[|ParamsPrefix()|..]
  {
    assert |a.name| >= |ParamsPrefix()|;
  }

  /**
   * A key other than `__proto__` is a parameter exactly when some attribute
   * named "params-" + key exists, and its value is that of the last such
   * attribute; `__proto__` is never a parameter.
   */
  lemma ParamsOfMeaning(attrs: seq<Attribute>)
    ensures forall key :: key in ParamsOf(attrs) <==>
      key != ProtoKey() && exists i :: 0 <= i < |attrs| && attrs[i].name == ParamsPrefix() + key
    ensures forall i ::
      (0 <= i < |attrs| && StartsWith(attrs[i].name, ParamsPrefix()) && attrs[i].name[|ParamsPrefix()|..] != ProtoKey()
       && forall j :: i < j < |attrs| ==> attrs[j].name != attrs[i].name) ==>
      ParamsOf(attrs)[attrs[i].name[|ParamsPrefix()|..]] == attrs[i].value
  {
    ParamsOfKeys(attrs);
    ParamsOfValues(attrs);
  }

  /** An attribute `params-__proto__` leaves the parameters as they were. */
  lemma ProtoParamIgnored(attrs: seq<Attribute>, value: string)
    ensures ParamsOf(attrs + [Attribute(ParamsPrefix() + ProtoKey(), value)]) == ParamsOf(attrs)
  {
    var a := Attribute(ParamsPrefix() + ProtoKey(), value);
    assert (attrs + [a])[..|attrs|] == attrs;
    assert a.name[..|ParamsPrefix()|] == ParamsPrefix();
    assert ParamKey(a) == ProtoKey() by {
      assert a.name[|ParamsPrefix()|..] == ProtoKey();
      ParamKeyStripsPrefix(a);
    }
  }

  lemma {:induction false} ParamsOfKeys(attrs: seq<Attribute>)
    ensures forall key :: key in ParamsOf(attrs) <==>
      key != ProtoKey() && exists i :: 0 <= i < |attrs| && attrs[i].name == ParamsPrefix() + key
  {
    if attrs != [] {
      var n := |attrs| - 1;
      var init, a := attrs[..n], attrs[n];
      ParamsOfKeys(init);
      var pre := ParamsPrefix();
      if StartsWith(a.name, pre) {
        ParamKeyStripsPrefix(a);
        assert a.name == pre + a.name[|pre|..];
      }
      forall key ensures key in ParamsOf(attrs) <==> key != ProtoKey() && exists i :: 0 <= i < |attrs| && attrs[i].name == pre + key {
        if key != ProtoKey() && exists i :: 0 <= i < |attrs| && attrs[i].name == pre + key {
          var i :| 0 <= i < |attrs| && attrs[i].name == pre + key;
          assert (pre + key)[..|pre|] == pre && (pre + key)[|pre|..] == key;
          if i < n {
            assert init[i] == attrs[i];
          }
        }
        if key in ParamsOf(init) {
          var i :| 0 <= i < |init| && init[i].name == pre + key;
          assert attrs[i] == init[i];
        }
      }
    }
  }

  lemma {:induction false} ParamsOfValues(attrs: seq<Attribute>)
    ensures forall i ::
      (0 <= i < |attrs| && StartsWith(attrs[i].name, ParamsPrefix()) && attrs[i].name[|ParamsPrefix()|..] != ProtoKey()
       && forall j :: i < j < |attrs| ==> attrs[j].name != attrs[i].name) ==>
      && attrs[i].name[|ParamsPrefix()|..] in ParamsOf(attrs)
      && ParamsOf(attrs)[attrs[i].name[|ParamsPrefix()|..]] == attrs[i].value
  {
    if attrs != [] {
      var n := |attrs| - 1;
      var init, a := attrs[..n], attrs[n];
      ParamsOfValues(init);
      var pre := ParamsPrefix();
      if StartsWith(a.name, pre) {
        ParamKeyStripsPrefix(a);
      }
      forall i | 0 <= i < |attrs| && StartsWith(attrs[i].name, pre) && attrs[i].name[|pre|..] != ProtoKey()
        && (forall j :: i < j < |attrs| ==> attrs[j].name != attrs[i].name)
        ensures attrs[i].name[|pre|..] in ParamsOf(attrs)
        ensures ParamsOf(attrs)[attrs[i].name[|pre|..]] == attrs[i].value
      {
        if i < n {
          assert init[i] == attrs[i];
          if StartsWith(a.name, pre) {
            assert a.name != attrs[i].name;
            assert a.name == pre + a.name[|pre|..];
            assert attrs[i].name == pre + attrs[i].name[|pre|..];
          }
        }
      }
    }
  }


  /** `serializeDatasources`: one `{ds_type, params}` per child, in document order. */
  method SerializeDatasources(children: seq<DatasourceElement>) returns (src: seq<Datasource>)
    ensures |src| == |children|
    ensures forall i :: 0 <= i < |children| ==> src[i] == DatasourceOf(children[i])
  {
    src := [];
    for c := 0 to |children|
      invariant |src| == c
      invariant forall i :: 0 <= i < c ==> src[i] == DatasourceOf(children[i])
    {
      var attributes := children[c].attributes;
      var params: map<string, string> := map[];
      for i := 0 to |attributes|
        invariant params == ParamsOf(attributes[..i])
      {
        assert attributes[..i + 1][..i] == attributes[..i];
        var attribute := attributes[i];
        if StartsWith(attribute.name, ParamsPrefix()) {
          var name := ReplaceFirst(attribute.name, ParamsPrefix(), "");
          if name != ProtoKey() {
            params := params[name := attribute.value];
          }
        }
      }
      assert attributes[..|attributes|] == attributes;
      src := src + [Datasource(children[c].dsType, params)];
    }
  }

  /** The body `getWidgetData` posts: the serialised children and the transformation. */
  method BuildRequest(children: seq<DatasourceElement>, transformation: string) returns (request: WidgetRequest)
    ensures request.transformation == transformation && request.csrf == Undefined
    ensures |request.datasources| == |children|
    ensures forall i :: 0 <= i < |children| ==> request.datasources[i] == DatasourceOf(children[i])
  {
    var datasources := SerializeDatasources(children);
    request := WidgetRequest(transformation, datasources, Undefined);
  }

  // ---------------------------------------------------------------------
  // The formatter lifecycle driven by componentDidRender.
  // ---------------------------------------------------------------------

  /**
   * A call the widget makes on its formatter. An `init` call records whether
   * it returned normally or threw.
   */
  datatype FormatterCall = InitCall(rsp: seq<WidgetResponsePayload>, returned: bool) | UpdateCall(rsp: seq<WidgetResponsePayload>)

  /** `formatterInitialized` and the formatter calls made so far. */
  datatype Lifecycle = Lifecycle(initialized: bool, calls: seq<FormatterCall>)

  /**
   * One `componentDidRender`: the `fetchedData` of its moment, and whether
   * the formatter's `init` returns normally if this render calls it.
   */
  datatype RenderEvent = RenderEvent(fetched: Maybe<WidgetDataResponse>, initReturns: bool)

  /**
   * One `componentDidRender`. An `init` that throws leaves the exception to
   * leave the method: the flag stays clear and no `update` follows. An
   * `update` that throws changes neither the flag nor the calls made.
   */
  function DidRender(s: Lifecycle, r: RenderEvent): (t: Lifecycle)
  {
    match r.fetched
    case Undefined => s
    case Defined(response) =>
      if s.initialized then Lifecycle(true, s.calls + [UpdateCall(response.rsp)])
      else if r.initReturns then Lifecycle(true, s.calls + [InitCall(response.rsp, true), UpdateCall(response.rsp)])
      else Lifecycle(false, s.calls + [InitCall(response.rsp, false)])
  }

  /** A sequence of renders from state `s`. */
  function RenderAll(s: Lifecycle, renders: seq<RenderEvent>): Lifecycle
  {
    if renders == [] then s else DidRender(RenderAll(s, renders[..|renders| - 1]), renders[|renders| - 1])
  }

  /** Every call before an `init` is an `init` that threw. */
  predicate OnlyFailedInitsBeforeInit(calls: seq<FormatterCall>)
  {
    forall p, q :: 0 <= p < q < |calls| && calls[q].InitCall? ==> calls[p].InitCall? && !calls[p].returned
  }

  /** Some `init` among `calls` returned normally. */
  predicate HasReturnedInit(calls: seq<FormatterCall>)
  {
    exists p :: 0 <= p < |calls| && calls[p].InitCall? && calls[p].returned
  }

  /** Every `update` comes after an `init` that returned normally. */
  predicate UpdatesAfterReturnedInit(calls: seq<FormatterCall>)
  {
    forall q :: 0 <= q < |calls| && calls[q].UpdateCall? ==> HasReturnedInit(calls[..q])
  }

  function UpdateCount(calls: seq<FormatterCall>): nat
  {
    if calls == [] then 0 else UpdateCount(calls[..|calls| - 1]) + (if calls[|calls| - 1].UpdateCall? then 1 else 0)
  }

  function FailedInitCount(calls: seq<FormatterCall>): nat
  {
    if calls == [] then 0
    else FailedInitCount(calls[..|calls| - 1]) + (if calls[|calls| - 1].InitCall? && !calls[|calls| - 1].returned then 1 else 0)
  }

  function DefinedCount(renders: seq<RenderEvent>): nat
  {
    if renders == [] then 0 else DefinedCount(renders[..|renders| - 1]) + (if renders[|renders| - 1].fetched.Defined? then 1 else 0)
  }

  /**
   * A render without data changes nothing. With data: once initialised it
   * only updates; before that it calls `init`, and either sets the flag and
   * updates, or, when `init` throws, leaves the flag clear so that the next
   * render with data calls `init` again.
   */
  lemma DidRenderStep(s: Lifecycle, r: RenderEvent)
    ensures r.fetched == Undefined ==> DidRender(s, r) == s
    ensures r.fetched.Defined? && s.initialized ==>
      DidRender(s, r) == Lifecycle(true, s.calls + [UpdateCall(r.fetched.value.rsp)])
    ensures r.fetched.Defined? && !s.initialized ==>
      && DidRender(s, r).initialized == r.initReturns
      && DidRender(s, r).calls == s.calls + [InitCall(r.fetched.value.rsp, r.initReturns)]
                                          + (if r.initReturns then [UpdateCall(r.fetched.value.rsp)] else [])
  {
  }

  /** After a render whose `init` threw, the next render with data calls `init` again. */
  lemma FailedInitIsRetried(s: Lifecycle, first: RenderEvent, next: RenderEvent)
    requires !s.initialized && first.fetched.Defined? && !first.initReturns && next.fetched.Defined?
    ensures var t := DidRender(DidRender(s, first), next);
      && t.calls[..|s.calls| + 2] == s.calls + [InitCall(first.fetched.value.rsp, false), InitCall(next.fetched.value.rsp, next.initReturns)]
      && t.initialized == next.initReturns
  {
    var u := DidRender(s, first);
    assert u == Lifecycle(false, s.calls + [InitCall(first.fetched.value.rsp, false)]);
    var t := DidRender(u, next);
    var tail := if next.initReturns then [UpdateCall(next.fetched.value.rsp)] else [];
    assert t.calls == u.calls + [InitCall(next.fetched.value.rsp, next.initReturns)] + tail;
  }

  /** A count over `a + b` is the count over `a` plus the count over `b`. */
  lemma {:induction false} CountsAppend(a: seq<FormatterCall>, b: seq<FormatterCall>)
    ensures UpdateCount(a + b) == UpdateCount(a) + UpdateCount(b)
    ensures FailedInitCount(a + b) == FailedInitCount(a) + FailedInitCount(b)
    decreases |b|
  {
    if b != [] {
      CountsAppend(a, b[..|b| - 1]);
      assert (a + b)[..|a + b| - 1] == a + b[..|b| - 1];
    } else {
      assert a + b == a;
    }
  }

  /**
   * Across any sequence of renders from a fresh widget: only `init`s that
   * threw come before an `init` (so at most one `init` returns, and none
   * follows an `update`); every `update` comes after an `init` that
   * returned; the flag is set exactly when some `init` returned, which is
   * exactly when some render had data and a returning `init`; and each
   * render with data makes one `update` or one throwing `init`.
   */
  lemma RenderAllLifecycle(renders: seq<RenderEvent>)
    ensures var t := RenderAll(Lifecycle(false, []), renders);
      && OnlyFailedInitsBeforeInit(t.calls)
      && UpdatesAfterReturnedInit(t.calls)
      && (forall p, q ::
            (0 <= p < |t.calls| && 0 <= q < |t.calls| && t.calls[p].InitCall? && t.calls[p].returned
             && t.calls[q].InitCall? && t.calls[q].returned) ==> p == q)
      && (t.initialized <==> HasReturnedInit(t.calls))
      && (t.initialized <==> exists i :: 0 <= i < |renders| && renders[i].fetched.Defined? && renders[i].initReturns)
      && UpdateCount(t.calls) + FailedInitCount(t.calls) == DefinedCount(renders)
  {
    RenderAllCalls(renders);
    RenderAllInitialized(renders);
    RenderAllCounts(renders);
    var t := RenderAll(Lifecycle(false, []), renders);
    forall p, q | 0 <= p < |t.calls| && 0 <= q < |t.calls| && t.calls[p].InitCall? && t.calls[p].returned
      && t.calls[q].InitCall? && t.calls[q].returned
      ensures p == q
    {
    }
  }

  /** Appending calls keeps the earlier calls' order facts. */
  lemma ExtendCalls(calls: seq<FormatterCall>, added: seq<FormatterCall>, initialized: bool)
    requires OnlyFailedInitsBeforeInit(calls) && UpdatesAfterReturnedInit(calls)
    requires initialized <==> HasReturnedInit(calls)
    requires added == [] || (!initialized && added[0].InitCall?) || (initialized && added[0].UpdateCall?)
    requires |added| == 2 ==> added[0].InitCall? && added[0].returned && added[1].UpdateCall?
    requires |added| <= 2 && (|added| == 1 && added[0].InitCall? ==> !added[0].returned)
    ensures var t := calls + added;
      && OnlyFailedInitsBeforeInit(t) && UpdatesAfterReturnedInit(t)
      && (HasReturnedInit(t) <==> initialized || (|added| == 2))
  {
    var t := calls + added;
    var n := |calls|;
    forall q | 0 <= q < n ensures t[..q] == calls[..q] {
    }
    forall p, q | 0 <= p < q < |t| && t[q].InitCall?
      ensures t[p].InitCall? && !t[p].returned
    {
      if q >= n {
        assert q == n && t[q] == added[0];
        assert !HasReturnedInit(calls);
        assert t[p] == calls[p];
      } else {
        assert t[p] == calls[p] && t[q] == calls[q];
      }
    }
    if |added| == 2 {
      assert t[n].InitCall? && t[n].returned;
    }
    if initialized {
      var w :| 0 <= w < n && calls[w].InitCall? && calls[w].returned;
      assert t[w] == calls[w];
    }
    if HasReturnedInit(t) {
      var w :| 0 <= w < |t| && t[w].InitCall? && t[w].returned;
      if w < n {
        assert calls[w] == t[w];
      }
    }
    forall q | 0 <= q < |t| && t[q].UpdateCall?
      ensures HasReturnedInit(t[..q])
    {
      if q < n {
        assert t[q] == calls[q];
        assert HasReturnedInit(calls[..q]);
      } else if |added| == 2 && q == n + 1 {
        assert t[..q][n] == added[0];
      } else {
        assert q == n && initialized;
        var w :| 0 <= w < n && calls[w].InitCall? && calls[w].returned;
        assert t[..q][w] == calls[w];
      }
    }
  }

  lemma {:induction false} RenderAllCalls(renders: seq<RenderEvent>)
    ensures var t := RenderAll(Lifecycle(false, []), renders);
      && OnlyFailedInitsBeforeInit(t.calls) && UpdatesAfterReturnedInit(t.calls)
      && (t.initialized <==> HasReturnedInit(t.calls))
  {
    if renders != [] {
      var n := |renders| - 1;
      RenderAllCalls(renders[..n]);
      var s := RenderAll(Lifecycle(false, []), renders[..n]);
      var r := renders[n];
      assert RenderAll(Lifecycle(false, []), renders) == DidRender(s, r);
      if r.fetched.Defined? {
        var rsp := r.fetched.value.rsp;
        if s.initialized {
          ExtendCalls(s.calls, [UpdateCall(rsp)], true);
        } else if r.initReturns {
          ExtendCalls(s.calls, [InitCall(rsp, true), UpdateCall(rsp)], false);
        } else {
          ExtendCalls(s.calls, [InitCall(rsp, false)], false);
        }
      }
    }
  }

  lemma {:induction false} RenderAllInitialized(renders: seq<RenderEvent>)
    ensures RenderAll(Lifecycle(false, []), renders).initialized <==>
      exists i :: 0 <= i < |renders| && renders[i].fetched.Defined? && renders[i].initReturns
  {
    if renders != [] {
      var n := |renders| - 1;
      RenderAllInitialized(renders[..n]);
      if exists i :: 0 <= i < |renders| && renders[i].fetched.Defined? && renders[i].initReturns {
        var i :| 0 <= i < |renders| && renders[i].fetched.Defined? && renders[i].initReturns;
        if i < n { assert renders[..n][i] == renders[i]; }
      }
      if exists i :: 0 <= i < n && renders[..n][i].fetched.Defined? && renders[..n][i].initReturns {
        var i :| 0 <= i < n && renders[..n][i].fetched.Defined? && renders[..n][i].initReturns;
        assert renders[i] == renders[..n][i];
      }
    }
  }

  lemma {:induction false} RenderAllCounts(renders: seq<RenderEvent>)
    ensures var t := RenderAll(Lifecycle(false, []), renders);
      UpdateCount(t.calls) + FailedInitCount(t.calls) == DefinedCount(renders)
  {
    if renders != [] {
      var n := |renders| - 1;
      RenderAllCounts(renders[..n]);
      var s := RenderAll(Lifecycle(false, []), renders[..n]);
      var r := renders[n];
      var t := RenderAll(Lifecycle(false, []), renders);
      assert t == DidRender(s, r);
      if r.fetched.Defined? {
        var rsp := r.fetched.value.rsp;
        if s.initialized {
          CountsAppend(s.calls, [UpdateCall(rsp)]);
          assert [UpdateCall(rsp)][..0] == [];
        } else if r.initReturns {
          var added := [InitCall(rsp, true), UpdateCall(rsp)];
          CountsAppend(s.calls, added);
          assert added[..1] == [InitCall(rsp, true)] && added[..1][..0] == [];
          assert UpdateCount(added[..1]) == 0 && FailedInitCount(added[..1]) == 0;
          assert UpdateCount(added) == 1 && FailedInitCount(added) == 0;
        } else {
          CountsAppend(s.calls, [InitCall(rsp, false)]);
          assert [InitCall(rsp, false)][..0] == [];
        }
      }
    }
  }

  // ---------------------------------------------------------------------
  // The component.
  // ---------------------------------------------------------------------

  /** What `render` puts inside the widget container. */
  datatype View = LoadingPlaceholder | FormatterMarkup

  /** What `render` shows for a given `fetchedData`: the placeholder exactly while there is no data. */
  function ViewFor(fetchedData: Maybe<WidgetDataResponse>): (v: View)
    ensures v == LoadingPlaceholder <==> fetchedData == Undefined
  {
    if fetchedData.Undefined? then LoadingPlaceholder else FormatterMarkup
  }

  /** The formatters `FormatterMap` (src/formatters/formatter-map.ts) holds. */
  datatype FormatterKind = PieFormatter | DonutFormatter

  /** The `FormatterMap` key of each formatter. */
  function FormatterKey(kind: FormatterKind): string
  {
    match kind
    case PieFormatter => "pie"
    case DonutFormatter => "donut"
  }

  /** The key of the `Object` constructor, which every object inherits from `Object.prototype`. */
  function ConstructorKey(): string { "constructor" }

  /**
   * What `new FormatterMap[transformation](...)` gives: a formatter, or,
   * under the inherited key "constructor", the options object itself, as
   * `new Object(options)` returns it. That object has no `init`, `update`
   * or `staticRender`.
   */
  datatype Selected = SelectedFormatter(kind: FormatterKind) | OptionsObject

  /**
   * `new FormatterMap[transformation](...)`. The table's own keys give their
   * formatter and "constructor" gives the options object. Any other key
   * throws: it reads `undefined`, or one of the other members `FormatterMap`
   * inherits from `Object.prototype` (`__proto__` and the methods such as
   * `toString`), none of which is a constructor.
   */
  function LookupFormatter(transformation: string): (r: Result<Selected>)
    ensures r.Ok? && r.value.SelectedFormatter? ==> FormatterKey(r.value.kind) == transformation
    ensures r.Ok? && r.value.OptionsObject? ==> transformation == ConstructorKey()
    ensures r.Throw? ==> r.error == NotAConstructor
  {
    if transformation == "pie" then Ok(SelectedFormatter(PieFormatter))
    else if transformation == "donut" then Ok(SelectedFormatter(DonutFormatter))
    else if transformation == ConstructorKey() then Ok(OptionsObject)
    else Throw(NotAConstructor)
  }

  /**
   * Every formatter is found under its own key, "constructor" gives the
   * options object, and the lookup throws exactly on every other key.
   */
  lemma LookupFormatterKey(kind: FormatterKind, transformation: string)
    ensures LookupFormatter(FormatterKey(kind)) == Ok(SelectedFormatter(kind))
    ensures LookupFormatter(ConstructorKey()) == Ok(OptionsObject)
    ensures LookupFormatter(transformation).Throw? <==>
      transformation != ConstructorKey() && forall k: FormatterKind :: FormatterKey(k) != transformation
  {
    if LookupFormatter(transformation).Ok? {
      var v := LookupFormatter(transformation).value;
      if v.SelectedFormatter? {
        assert FormatterKey(v.kind) == transformation;
      }
    } else {
      assert FormatterKey(PieFormatter) == "pie" && FormatterKey(DonutFormatter) == "donut";
    }
  }

  /** Whether the selected value is a formatter, that is, has `init`, `update` and `staticRender`. */
  predicate IsFormatter(selected: Maybe<Selected>)
  {
    selected.Defined? && selected.value.SelectedFormatter?
  }

  class NtopWidget {
    /** `@Prop() update`: the refresh period in milliseconds (default 1000). */
    var update: int
    /** `@Prop() transformation`: the `FormatterMap` key of the formatter to use. */
    var transformation: string
    /** `selectedFormatter`: set by `componentWillLoad`. */
    var selected: Maybe<Selected>
    /** `@State() fetchedData`: the last response, `undefined` while loading or after a failed fetch. */
    var fetchedData: Maybe<WidgetDataResponse>
    var formatterInitialized: bool
    /** Whether `componentWillLoad` armed the refresh timer. */
    var timerArmed: bool
    /** The calls made on the selected formatter so far, in order. */
    var calls: seq<FormatterCall>

    constructor (update: int, transformation: string)
      ensures this.update == update && this.transformation == transformation
      ensures selected == Undefined && fetchedData == Undefined
      ensures !formatterInitialized && !timerArmed && calls == []
    {
      this.update := update;
      this.transformation := transformation;
      selected := Undefined;
      fetchedData := Undefined;
      formatterInitialized := false;
      timerArmed := false;
      calls := [];
    }

    /**
     * `componentDidRender`: calls `init` while the flag is clear and there is
     * data, sets the flag when it returns, then updates on every render with
     * data once the flag is set. `initReturns` says whether a formatter's
     * `init` returns normally; when the selected value is no formatter the
     * call throws as well, and the method stops there.
     */
    method ComponentDidRender(initReturns: bool)
      modifies this`formatterInitialized, this`calls
      ensures Lifecycle(formatterInitialized, calls)
           == DidRender(Lifecycle(old(formatterInitialized), old(calls)),
                        RenderEvent(fetchedData, initReturns && IsFormatter(selected)))
    {
      if fetchedData.Defined? && !formatterInitialized {
        var returned := initReturns && IsFormatter(selected);
        calls := calls + [InitCall(fetchedData.value.rsp, returned)];
        if !returned {
          return;
        }
        formatterInitialized := true;
      }
      if fetchedData.Defined? && formatterInitialized {
        calls := calls + [UpdateCall(fetchedData.value.rsp)];
      }
    }

    /**
     * `componentWillLoad`: selects the formatter named by `transformation`,
     * then stores the first fetch (the response, or `undefined` when the
     * fetch failed) and arms the refresh timer exactly when `update >= 0`.
     * A `transformation` that names no constructor throws before the fetch,
     * so nothing is stored and no timer is armed; "constructor" selects the
     * options object and carries on. The framework runs it once, before any
     * timer exists.
     */
    method ComponentWillLoad(fetched: Maybe<WidgetDataResponse>) returns (outcome: Outcome)
      requires !timerArmed
      modifies this`selected, this`fetchedData, this`timerArmed
      ensures outcome.Failed? <==> LookupFormatter(transformation).Throw?
      ensures outcome.Failed? ==> outcome.error == NotAConstructor
      ensures outcome.Failed? ==> selected == old(selected) && fetchedData == old(fetchedData) && !timerArmed
      ensures outcome.Done? ==> selected == Defined(LookupFormatter(transformation).value)
      ensures outcome.Done? ==> fetchedData == fetched && (timerArmed <==> update >= 0)
    {
      var formatter := LookupFormatter(transformation);
      if formatter.Throw? {
        return Failed(formatter.error);
      }
      selected := Defined(formatter.value);
      fetchedData := fetched;
      if update >= 0 {
        timerArmed := true;
      }
      outcome := Done;
    }

    /** The refresh timer: the new fetch replaces `fetchedData`, `undefined` on failure included. */
    method OnTimer(fetched: Maybe<WidgetDataResponse>)
      requires timerArmed
      modifies this`fetchedData
      ensures fetchedData == fetched
    {
      fetchedData := fetched;
    }

    /**
     * `render`: the loading placeholder while there is no data, else the
     * formatter's markup; `staticRender` of a selected value that is no
     * formatter is not a function, so that render throws.
     */
    function Render(): (r: Result<View>)
      reads this
      ensures r.Throw? <==> fetchedData.Defined? && !IsFormatter(selected)
      ensures r.Throw? ==> r.error == NotAFunction
      ensures r.Ok? ==> (r.value == LoadingPlaceholder <==> fetchedData == Undefined)
    {
      if fetchedData.Defined? && !IsFormatter(selected) then Throw(NotAFunction) else Ok(ViewFor(fetchedData))
    }
  }
}
