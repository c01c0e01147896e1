/**
 * The Twilio tap: the constructor's guard sequence, the page options it builds
 * from the config, the page walker behind `streamInstances`, and the
 * `streamMessages` map that turns each instance into a record line.
 */
module Tap {
  import opened Wrappers
  import opened Json
  import opened SingerIO

  const DiscoveryUnsupported: string := "Discovery mode not supported"
  const UsageMessage: string := "Usage: tap-twilio --config <config-file>"
  const MissingCredentials: string := "Config file must have accountSid and authToken"

  // ---------------------------------------------------------------------------
  // JavaScript values as seen by the tap
  // ---------------------------------------------------------------------------

  /** JavaScript truthiness of a value that may be `undefined` (`None`). */
  predicate Truthy(v: Option<Json>) {
    match v
    case None => false
    case Some(j) =>
      match j
      case Null => false
      case Bool(b) => b
      case Num(n) => n != 0
      case Str(s) => s != ""
      case Arr(_) => true
      case Obj(_) => true
  }

  /** Property access `o.key` on a parsed non-null JSON value, for a key that
      is no built-in property (such as `length` or `constructor`) and no
      array index, as the keys the tap reads are: the last member with that
      key (`JSON.parse` keeps the last duplicate), `undefined` for a missing key and for values that are
      not objects. */
  function Get(o: Json, key: string): (r: Option<Json>)
    decreases if o.Obj? then |o.members| else 0
    ensures r.Some? ==> o.Obj? && exists i :: 0 <= i < |o.members| && o.members[i] == Member(key, r.value) &&
                                           forall j :: i < j < |o.members| ==> o.members[j].key != key
    ensures r.None? ==> !o.Obj? || forall i :: 0 <= i < |o.members| ==> o.members[i].key != key
  {
    if !o.Obj? || o.members == [] then None
    else
      var last := o.members[|o.members| - 1];
      if last.key == key then Some(last.value)
      else
        var init := o.members[..|o.members| - 1];
        var r := Get(Obj(init), key);
        assert o.members == init + [last];
        if r.Some? then LastOccurrence(init, last, key, r.value); r
        else r
  }

  /** The last occurrence of a key before a final member with another key is
      its last occurrence in the whole list. */
  lemma LastOccurrence(init: seq<Member>, last: Member, key: string, v: Json)
    requires last.key != key
    requires exists i :: 0 <= i < |init| && init[i] == Member(key, v) && forall j :: i < j < |init| ==> init[j].key != key
    ensures var ms := init + [last];
      exists i :: 0 <= i < |ms| && ms[i] == Member(key, v) && forall j :: i < j < |ms| ==> ms[j].key != key
  {
    var i :| 0 <= i < |init| && init[i] == Member(key, v) && forall j :: i < j < |init| ==> init[j].key != key;
    var ms := init + [last];
    assert ms[i] == Member(key, v);
    assert forall j :: i < j < |ms| ==> ms[j].key != key;
  }

  // ---------------------------------------------------------------------------
  // Construction (app/Tap.js:12-30)
  // ---------------------------------------------------------------------------

  /** The parsed command-line arguments the constructor reads. */
  datatype Args = Args(discovery: Option<Json>, config: Option<Json>)

  /** Why construction failed: a thrown message string, a failure to read or
      parse the config file, or a `TypeError` from reading a property of a
      config file whose text is `null`. */
  datatype Failure = Thrown(message: string) | LoadFailed(cause: string) | NullConfig

  /** The Twilio client, reduced to the credentials it was created with. */
  datatype Client = Client(accountSid: Json, authToken: Json)

  /** A constructed tap: its config and its client. */
  datatype Tap = Tap(config: Json, twilio: Client)

  predicate HasCredentials(config: Json) {
    config != Null && Truthy(Get(config, "accountSid")) && Truthy(Get(config, "authToken"))
  }

  /** `new Tap(args)`; `loaded` is the outcome of reading and parsing the
      file named by `args.config`, which is only consulted once the argument
      checks have passed. */
  function Construct(args: Args, loaded: Result<Json, string>): (r: Result<Tap, Failure>)
    ensures Truthy(args.discovery) ==> r == Failure(Thrown(DiscoveryUnsupported))
    ensures !Truthy(args.discovery) && !Truthy(args.config) ==> r == Failure(Thrown(UsageMessage))
    ensures !Truthy(args.discovery) && Truthy(args.config) && loaded.Failure? ==>
      r == Failure(LoadFailed(loaded.error))
    ensures !Truthy(args.discovery) && Truthy(args.config) && loaded == Success(Null) ==>
      r == Failure(NullConfig)
    ensures (!Truthy(args.discovery) && Truthy(args.config) && loaded.Success? && loaded.value != Null &&
             !HasCredentials(loaded.value)) ==> r == Failure(Thrown(MissingCredentials))
    ensures r.Success? <==>
      !Truthy(args.discovery) && Truthy(args.config) && loaded.Success? && HasCredentials(loaded.value)
    ensures r.Success? ==>
      r.value.config == loaded.value && r.value.config.Obj? &&
      r.value.twilio == Client(Get(loaded.value, "accountSid").value, Get(loaded.value, "authToken").value)
  {
    if Truthy(args.discovery) then Failure(Thrown(DiscoveryUnsupported))
    else if !Truthy(args.config) then Failure(Thrown(UsageMessage))
    else if loaded.Failure? then Failure(LoadFailed(loaded.error))
    else
      var config := loaded.value;
      if config == Null then Failure(NullConfig)
      else
        var sid := Get(config, "accountSid");
        var token := Get(config, "authToken");
        if !Truthy(sid) || !Truthy(token) then Failure(Thrown(MissingCredentials))
        else Success(Tap(config, Client(sid.value, token.value)))
  }

  /** The argument checks come before the config file is read: their outcome
      does not depend on what reading it would give. */
  lemma ArgumentChecksIgnoreConfigFile(args: Args, a: Result<Json, string>, b: Result<Json, string>)
    requires Truthy(args.discovery) || !Truthy(args.config)
    ensures Construct(args, a) == Construct(args, b)
    ensures Construct(args, a).Failure? && Construct(args, a).error.Thrown?
  {
  }

  /** An empty-string credential is as good as a missing one. */
  lemma EmptyCredentialRejected(args: Args, sid: Json)
    requires !Truthy(args.discovery) && Truthy(args.config)
    ensures Construct(args, Success(Obj([Member("accountSid", sid), Member("authToken", Str(""))])))
      == Failure(Thrown(MissingCredentials))
    ensures Construct(args, Success(Obj([Member("accountSid", Str("")), Member("authToken", sid)])))
      == Failure(Thrown(MissingCredentials))
  {
    var c1 := Obj([Member("accountSid", sid), Member("authToken", Str(""))]);
    assert Get(c1, "authToken") == Some(Str(""));
    var c2 := Obj([Member("accountSid", Str("")), Member("authToken", sid)]);
    assert Get(c2, "accountSid") == Get(Obj([Member("accountSid", Str(""))]), "accountSid");
  }

  /** The configuration used throughout the tests constructs successfully and
      hands both credentials to the client. */
  lemma ConstructExample()
    ensures Construct(Args(None, Some(Str("<config-file>"))),
                      Success(Obj([Member("accountSid", Str("<account-sid>")), Member("authToken", Str("<auth-token>"))])))
      == Success(Tap(Obj([Member("accountSid", Str("<account-sid>")), Member("authToken", Str("<auth-token>"))]),
                     Client(Str("<account-sid>"), Str("<auth-token>"))))
  {
    var c := Obj([Member("accountSid", Str("<account-sid>")), Member("authToken", Str("<auth-token>"))]);
    assert Get(c, "authToken") == Some(Str("<auth-token>"));
    assert Get(c, "accountSid") == Get(Obj([Member("accountSid", Str("<account-sid>"))]), "accountSid");
  }

  // ---------------------------------------------------------------------------
  // Page options (app/Tap.js:77-81)
  // ---------------------------------------------------------------------------

  /** The options object passed to the first `api.page` call. */
  function PageOptions(config: Json): (r: Json)
    ensures r.Obj?
    ensures Truthy(Get(config, "pageSize")) ==> r.members == [Member("pageSize", Get(config, "pageSize").value)]
    ensures !Truthy(Get(config, "pageSize")) ==> r.members == []
  {
    var size := Get(config, "pageSize");
    if Truthy(size) then Obj([Member("pageSize", size.value)]) else Obj([])
  }

  /** Reading `pageSize` back from the options gives the configured size when
      it is truthy and nothing otherwise; no other key is ever present. */
  lemma PageOptionsKeys(config: Json, key: string)
    ensures Get(PageOptions(config), key) ==
      if key == "pageSize" && Truthy(Get(config, "pageSize")) then Get(config, "pageSize") else None
  {
    var opts := PageOptions(config);
    if opts.members != [] {
      assert opts.members[..0] == [];
    }
  }

  // ---------------------------------------------------------------------------
  // The page walker (app/Tap.js:73-103)
  // ---------------------------------------------------------------------------

  /** What the k-th fetch of the page API gave: a page of instances, no page
      (`undefined`), or a rejected promise. */
  datatype FetchResult<T, E> = Page(instances: seq<T>) | NoPage | Fail(error: E)

  /** What the stream delivers to its consumer. */
  datatype Event<T, E> = Item(value: T) | Error(error: E) | End

  /** A fetch the walker made: `api.page(options)`, or `nextPage()` on the
      page returned by the fetch with the given index. */
  datatype Call = FirstPage(options: Json) | NextPage(page: nat)

  /** Whether the generator will run again (`next()` was called), the stream
      has ended (`nil` was pushed), or an error was pushed without `next()`. */
  datatype Phase = Waiting | Ended | Failed

  /** The page API as an oracle: `fetches[k]` is the result of the k-th call;
      calls past the end find no page. */
  function FetchAt<T, E>(fetches: seq<FetchResult<T, E>>, k: nat): (f: FetchResult<T, E>) {
    if k < |fetches| then fetches[k] else NoPage
  }

  function Items<T, E>(xs: seq<T>): (r: seq<Event<T, E>>)
    ensures |r| == |xs| && forall i :: 0 <= i < |xs| ==> r[i] == Item(xs[i])
  {
    seq(|xs|, i requires 0 <= i < |xs| => Item(xs[i]))
  }

  lemma ItemsConcat<T, E>(xs: seq<T>, ys: seq<T>)
    ensures Items<T, E>(xs + ys) == Items<T, E>(xs) + Items<T, E>(ys)
  {
  }

  /** The events one generator run pushes for a fetch result. */
  function StepEvents<T, E>(f: FetchResult<T, E>): (r: seq<Event<T, E>>)
    ensures f.Page? ==> r == Items(f.instances)
    ensures f.NoPage? ==> r == [End]
    ensures f.Fail? ==> r == [Error(f.error)]
  {
    match f
    case Page(xs) => Items(xs)
    case NoPage => [End]
    case Fail(e) => [Error(e)]
  }

  /** The whole sequence the stream delivers for an oracle: the instances of
      every page in order, up to the first fetch that finds no page (then the
      end of the stream) or fails (then that error). */
  function Expected<T, E>(fetches: seq<FetchResult<T, E>>): (r: seq<Event<T, E>>)
    decreases |fetches|
  {
    if fetches == [] then [End]
    else match fetches[0]
      case Page(xs) => Items(xs) + Expected(fetches[1..])
      case NoPage => [End]
      case Fail(e) => [Error(e)]
  }

  /** The index of the first fetch that does not return a page. */
  function FirstStop<T, E>(fetches: seq<FetchResult<T, E>>): (k: nat)
    decreases |fetches|
    ensures k <= |fetches|
    ensures forall i :: 0 <= i < k ==> fetches[i].Page?
    ensures !FetchAt(fetches, k).Page?
  {
    if fetches == [] || !fetches[0].Page? then 0 else 1 + FirstStop(fetches[1..])
  }

  /** The instances of the pages in `pages`, in order. */
  function Instances<T, E>(pages: seq<FetchResult<T, E>>): (r: seq<T>)
    decreases |pages|
  {
    if pages == [] then []
    else (if pages[0].Page? then pages[0].instances else []) + Instances(pages[1..])
  }

  /** The terminal event of a stream, from the fetch that stopped it. */
  function Terminal<T, E>(f: FetchResult<T, E>): (r: Event<T, E>)
    ensures f.Fail? ==> r == Error(f.error)
    ensures !f.Fail? ==> r == End
  {
    if f.Fail? then Error(f.error) else End
  }

  /** Expected in closed form: every instance of the pages before the first
      stop, in order, then exactly one terminal event. */
  lemma {:induction false} ExpectedClosedForm<T, E>(fetches: seq<FetchResult<T, E>>)
    ensures Expected(fetches) ==
      Items(Instances(fetches[..FirstStop(fetches)])) + [Terminal(FetchAt(fetches, FirstStop(fetches)))]
    decreases |fetches|
  {
    if fetches != [] && fetches[0].Page? {
      var k := FirstStop(fetches);
      var tail := fetches[1..];
      ExpectedClosedForm(tail);
      assert fetches[..k][1..] == tail[..k - 1];
      assert FetchAt(fetches, k) == FetchAt(tail, k - 1);
      ItemsConcat<T, E>(fetches[0].instances, Instances(tail[..k - 1]));
    }
  }

  /** Only the last event is not an instance, and it ends or fails the stream. */
  lemma ExpectedShape<T, E>(fetches: seq<FetchResult<T, E>>)
    ensures |Expected(fetches)| >= 1
    ensures forall i :: 0 <= i < |Expected(fetches)| - 1 ==> Expected(fetches)[i].Item?
    ensures !Expected(fetches)[|Expected(fetches)| - 1].Item?
  {
    ExpectedClosedForm(fetches);
  }

  /** The stream fails exactly when the first fetch that gives no page was
      rejected, and the error it carries is that rejection's. */
  lemma ExpectedErrorIff<T, E>(fetches: seq<FetchResult<T, E>>, e: E)
    ensures Error(e) in Expected(fetches) <==> FetchAt(fetches, FirstStop(fetches)) == Fail(e)
    ensures End in Expected(fetches) <==> FetchAt(fetches, FirstStop(fetches)).NoPage?
  {
    ExpectedClosedForm(fetches);
    var items := Items<T, E>(Instances(fetches[..FirstStop(fetches)]));
    assert Error(e) !in items;
    assert End !in items;
  }

  /** After some pages, the fetch that gives no page decides the rest: the
      pages' instances in order, then the end of the stream or the error, and
      nothing from any later fetch. */
  lemma {:induction false} StopAfterPages<T, E>(pages: seq<FetchResult<T, E>>, stop: FetchResult<T, E>,
                                                later: seq<FetchResult<T, E>>)
    requires forall i :: 0 <= i < |pages| ==> pages[i].Page?
    requires !stop.Page?
    ensures Expected(pages + [stop] + later) == Items(Instances(pages)) + [Terminal(stop)]
    decreases |pages|
  {
    if pages != [] {
      StopAfterPages(pages[1..], stop, later);
      assert (pages + [stop] + later)[1..] == pages[1..] + [stop] + later;
      ItemsConcat<T, E>(pages[0].instances, Instances(pages[1..]));
    } else {
      assert ([] + [stop] + later)[0] == stop;
    }
  }

  /** Only a missing page ends the stream: an empty page is followed. */
  lemma EmptyPageFollowed<T, E>(rest: seq<FetchResult<T, E>>)
    ensures Expected([Page([])] + rest) == Expected(rest)
  {
    assert ([Page([])] + rest)[1..] == rest;
  }

  /** Three pages of sizes 2, 2 and 1, then no page: five instances, then the end. */
  lemma ThreePagesExample()
    ensures Expected<string, string>([Page(["<instance-1>", "<instance-2>"]), Page(["<instance-3>", "<instance-4>"]),
                                      Page(["<instance-5>"]), NoPage])
      == [Item("<instance-1>"), Item("<instance-2>"), Item("<instance-3>"), Item("<instance-4>"),
          Item("<instance-5>"), End]
  {
    var f: seq<FetchResult<string, string>> :=
      [Page(["<instance-1>", "<instance-2>"]), Page(["<instance-3>", "<instance-4>"]), Page(["<instance-5>"]), NoPage];
    assert f[1..][1..][1..] == [NoPage];
  }

  /** All instances in the first page: two instances, then the end. */
  lemma SinglePageExample()
    ensures Expected<string, string>([Page(["<instance-1>", "<instance-2>"]), NoPage])
      == [Item("<instance-1>"), Item("<instance-2>"), End]
  {
    var f: seq<FetchResult<string, string>> := [Page(["<instance-1>", "<instance-2>"]), NoPage];
    assert f[1..] == [NoPage];
  }

  /** An empty first page with no next page: no instances and no error. */
  lemma EmptyExample()
    ensures Expected<string, string>([Page([]), NoPage]) == [End]
  {
    EmptyPageFollowed<string, string>([NoPage]);
  }

  /** A rejected first fetch: only the error. */
  lemma FailureExample(later: seq<FetchResult<string, string>>)
    ensures Expected<string, string>([Fail("oh noes!")] + later) == [Error("oh noes!")]
  {
    StopAfterPages<string, string>([], Fail("oh noes!"), later);
  }

  /** The fetches of a walk that made `n` of them: `api.page(options)` first,
      then `nextPage()` on the page each previous fetch returned. */
  function CallLog(n: nat, options: Json): (r: seq<Call>)
    ensures |r| == n
    ensures forall k :: 0 <= k < n ==> r[k] == if k == 0 then FirstPage(options) else NextPage(k - 1)
  {
    if n == 0 then [] else CallLog(n - 1, options) + [if n == 1 then FirstPage(options) else NextPage(n - 2)]
  }

  /** The stream returned by `streamInstances(api)`, as a pull-driven state
      machine. Each call of `Pull` is one run of the Highland generator. */
  class PageWalker<T, E> {
    /** The page API as an oracle. */
    const fetches: seq<FetchResult<T, E>>
    /** The options built from the tap's config. */
    const pageOptions: Json
    /** The index of the fetch that returned `lastPage`, if any. */
    var lastPage: Option<nat>
    /** How many fetches have been made. */
    var fetched: nat
    /** Every fetch made so far, in order. */
    var calls: seq<Call>
    /** Everything pushed so far, in order. */
    var emitted: seq<Event<T, E>>
    var phase: Phase

    ghost predicate Valid()
      reads this
    {
      calls == CallLog(fetched, pageOptions) &&
      (phase == Waiting ==>
        fetched <= |fetches| &&
        (forall k :: 0 <= k < fetched ==> fetches[k].Page?) &&
        lastPage == (if fetched == 0 then None else Some(fetched - 1)) &&
        emitted + Expected(fetches[fetched..]) == Expected(fetches)) &&
      (phase != Waiting ==>
        fetched == FirstStop(fetches) + 1 && emitted == Expected(fetches) &&
        (phase == Ended <==> FetchAt(fetches, FirstStop(fetches)).NoPage?) &&
        lastPage == (if fetched == 1 then None else Some(fetched - 2)))
    }

    /** `streamInstances(api)` on a constructed tap: build the options from
        its config, with no cursor and nothing fetched yet. */
    constructor (tap: Tap, fetches: seq<FetchResult<T, E>>)
      ensures Valid()
      ensures this.fetches == fetches && pageOptions == PageOptions(tap.config)
      ensures lastPage == None && fetched == 0 && calls == [] && emitted == [] && phase == Waiting
    {
      var members: seq<Member> := [];
      var size := Get(tap.config, "pageSize");
      if Truthy(size) {
        members := members + [Member("pageSize", size.value)];
      }
      this.fetches := fetches;
      pageOptions := Obj(members);
      lastPage := None;
      fetched := 0;
      calls := [];
      emitted := [];
      phase := Waiting;
    }

    /** The fetch the next generator run makes. */
    function NextCall(): (c: Call)
      reads this
      ensures lastPage.None? ==> c == FirstPage(pageOptions)
      ensures lastPage.Some? ==> c == NextPage(lastPage.value)
    {
      if lastPage.Some? then NextPage(lastPage.value) else FirstPage(pageOptions)
    }

    /** One run of the generator: fetch the first page or the next page of
        the cursor, then end the stream, push the error, or move the cursor
        and push every instance of the page. */
    method Pull()
      requires Valid() && phase == Waiting
      modifies this
      ensures Valid()
      ensures calls == old(calls) + [old(NextCall())]
      ensures fetched == old(fetched) + 1
      ensures emitted == old(emitted) + StepEvents(FetchAt(fetches, old(fetched)))
      ensures FetchAt(fetches, old(fetched)).Page? ==> lastPage == Some(old(fetched)) && phase == Waiting
      ensures FetchAt(fetches, old(fetched)).NoPage? ==> lastPage == old(lastPage) && phase == Ended
      ensures FetchAt(fetches, old(fetched)).Fail? ==> lastPage == old(lastPage) && phase == Failed
      ensures old(lastPage).Some? ==> lastPage.Some? && old(lastPage).value <= lastPage.value
    {
      ghost var before := emitted;
      ghost var k := fetched;
      WalkStep(fetches, k, before);
      calls := calls + [NextCall()];
      var result := FetchAt(fetches, fetched);
      match result {
        case NoPage =>
          emitted := emitted + [End];
          phase := Ended;
        case Fail(e) =>
          emitted := emitted + [Error(e)];
          phase := Failed;
        case Page(xs) =>
          lastPage := Some(fetched);
          PushAll(xs);
      }
      fetched := fetched + 1;
    }

    /** `page.instances.forEach(instance => push(null, instance))`. */
    method PushAll(xs: seq<T>)
      modifies this`emitted
      ensures emitted == old(emitted) + Items(xs)
    {
      for i := 0 to |xs|
        invariant emitted == old(emitted) + Items(xs[..i])
      {
        emitted := emitted + [Item(xs[i])];
        assert xs[..i + 1] == xs[..i] + [xs[i]];
      }
      assert xs[..|xs|] == xs;
    }

    /** Pull until the stream ends or fails, as a consumer collecting the
        stream does: it delivers exactly `Expected(fetches)`, after exactly
        one fetch per page before the first stop and one for the stop. */
    method Drain()
      requires Valid()
      modifies this
      ensures Valid() && phase != Waiting
      ensures emitted == Expected(fetches)
      ensures fetched == FirstStop(fetches) + 1 && |calls| == fetched
      ensures phase == (if FetchAt(fetches, FirstStop(fetches)).NoPage? then Ended else Failed)
      ensures lastPage == (if FirstStop(fetches) == 0 then None else Some(FirstStop(fetches) - 1))
    {
      while phase == Waiting
        invariant Valid()
        decreases |fetches| + 1 - fetched, if phase == Waiting then 1 else 0
      {
        Pull();
      }
    }
  }

  /** The rest of the walk from a page: its instances, then the walk after it. */
  lemma ExpectedAtPage<T, E>(fetches: seq<FetchResult<T, E>>, k: nat)
    requires k < |fetches| && fetches[k].Page?
    ensures Expected(fetches[k..]) == Items(fetches[k].instances) + Expected(fetches[k + 1..])
  {
    assert fetches[k..][1..] == fetches[k + 1..];
  }

  /** The rest of the walk from a fetch that gives no page: its one event. */
  lemma ExpectedAtStop<T, E>(fetches: seq<FetchResult<T, E>>, k: nat)
    requires k <= |fetches| && !FetchAt(fetches, k).Page?
    ensures Expected(fetches[k..]) == StepEvents(FetchAt(fetches, k))
  {
    if k < |fetches| {
      assert fetches[k..][0] == fetches[k];
    }
  }

  /** One generator run keeps the walker's account of what is still to come:
      after a page the instances pushed so far and the rest of the walk still
      make up `Expected`; after a stop the pushed events are all of it. */
  lemma WalkStep<T, E>(fetches: seq<FetchResult<T, E>>, k: nat, emitted: seq<Event<T, E>>)
    requires k <= |fetches| && forall i :: 0 <= i < k ==> fetches[i].Page?
    requires emitted + Expected(fetches[k..]) == Expected(fetches)
    ensures FetchAt(fetches, k).Page? ==>
      k < |fetches| && (emitted + Items(fetches[k].instances)) + Expected(fetches[k + 1..]) == Expected(fetches)
    ensures !FetchAt(fetches, k).Page? ==>
      emitted + StepEvents(FetchAt(fetches, k)) == Expected(fetches) && FirstStop(fetches) == k
  {
    if FetchAt(fetches, k).Page? {
      ExpectedAtPage(fetches, k);
      var xs, rest := Items<T, E>(fetches[k].instances), Expected(fetches[k + 1..]);
      assert (emitted + xs) + rest == emitted + (xs + rest);
    } else {
      ExpectedAtStop(fetches, k);
      FirstStopAt(fetches, k);
    }
  }

  /** The first stop is the first index whose fetch is not a page. */
  lemma {:induction false} FirstStopAt<T, E>(fetches: seq<FetchResult<T, E>>, k: nat)
    requires k <= |fetches|
    requires forall i :: 0 <= i < k ==> fetches[i].Page?
    requires !FetchAt(fetches, k).Page?
    ensures FirstStop(fetches) == k
    decreases k
  {
    if k > 0 {
      FirstStopAt(fetches[1..], k - 1);
    }
  }

  // ---------------------------------------------------------------------------
  // Record messages (app/Tap.js:61-65)
  // ---------------------------------------------------------------------------

  /** `streamMessages`: each instance becomes its record message and a
      newline; errors and the end pass through. */
  function StreamMessages<E>(stream: string, events: seq<Event<Json, E>>): (r: seq<Event<string, E>>)
    ensures |r| == |events|
    ensures forall i :: 0 <= i < |events| ==> r[i] == FormatEvent(stream, events[i])
  {
    seq(|events|, i requires 0 <= i < |events| => FormatEvent(stream, events[i]))
  }

  /** One event of `streamMessages`: an instance becomes a line holding its
      record message, which reads back as the stream name and the instance. */
  function FormatEvent<E>(stream: string, e: Event<Json, E>): (r: Event<string, E>)
    ensures e.Item? <==> r.Item?
    ensures e.Error? ==> r == Error(e.error)
    ensures e.End? ==> r == End
    ensures e.Item? ==>
      |r.value| >= 1 && r.value[..|r.value| - 1] == FormatRecord(stream, e.value) &&
      r.value[|r.value| - 1] == '\n' &&
      DecodeRecord(r.value[..|r.value| - 1]) == Some((stream, e.value))
  {
    match e
    case Item(record) =>
      var line := FormatRecord(stream, record);
      DecodeFormatRecord(stream, record);
      assert (line + "\n")[..|line|] == line;
      Item(line + "\n")
    case Error(err) => Error(err)
    case End => End
  }

  /** The text piped to the output: the lines of the events up to the first
      one that is not a line. */
  function Written<E>(events: seq<Event<string, E>>): (r: string)
    decreases |events|
  {
    if events == [] || !events[0].Item? then "" else events[0].value + Written(events[1..])
  }

  /** The length of the first line of `s`, without its line feed. */
  function LineLength(s: string): (k: nat)
    decreases |s|
    ensures k <= |s|
    ensures forall i :: 0 <= i < k ==> s[i] != '\n'
    ensures k < |s| ==> s[k] == '\n'
  {
    if s == "" || s[0] == '\n' then 0 else 1 + LineLength(s[1..])
  }

  /** Split a text into its lines at each line feed; a text that does not end
      with one has its remainder as the last line. */
  function SplitLines(s: string): (lines: seq<string>)
    decreases |s|
  {
    if s == "" then []
    else
      var k := LineLength(s);
      [s[..k]] + (if k < |s| then SplitLines(s[k + 1..]) else [])
  }

  /** A line with no line feed in it, followed by one, is split off as is. */
  lemma SplitFirstLine(line: string, more: string)
    requires forall i :: 0 <= i < |line| ==> line[i] != '\n'
    ensures SplitLines(line + "\n" + more) == [line] + SplitLines(more)
  {
    var s := line + "\n" + more;
    assert s[|line|] == '\n';
    assert forall i :: 0 <= i < |line| ==> s[i] == line[i];
    assert LineLength(s) == |line| by { LineLengthAt(s, |line|); }
    assert s[..|line|] == line;
    assert s[|line| + 1..] == more;
  }

  lemma {:induction false} LineLengthAt(s: string, k: nat)
    requires k < |s| && s[k] == '\n'
    requires forall i :: 0 <= i < k ==> s[i] != '\n'
    ensures LineLength(s) == k
    decreases k
  {
    if k > 0 {
      LineLengthAt(s[1..], k - 1);
    }
  }

  /** The first instance's line comes first in the output. */
  lemma WrittenFirstLine<E>(stream: string, records: seq<Json>, tail: seq<Event<Json, E>>)
    requires records != []
    ensures Written(StreamMessages(stream, Items<Json, E>(records) + tail)) ==
      FormatRecord(stream, records[0]) + "\n" + Written(StreamMessages(stream, Items<Json, E>(records[1..]) + tail))
  {
    var events := Items<Json, E>(records) + tail;
    var out := StreamMessages(stream, events);
    assert events[1..] == Items<Json, E>(records[1..]) + tail;
    assert out[1..] == StreamMessages(stream, events[1..]);
    assert out[0] == FormatEvent(stream, Item(records[0]));
  }

  /** The formatted records, one per line. */
  function FormattedLines(stream: string, records: seq<Json>): (lines: seq<string>)
    ensures |lines| == |records| && forall i :: 0 <= i < |records| ==> lines[i] == FormatRecord(stream, records[i])
  {
    seq(|records|, i requires 0 <= i < |records| => FormatRecord(stream, records[i]))
  }

  lemma FormattedLinesCons(stream: string, records: seq<Json>)
    requires records != []
    ensures FormattedLines(stream, records) == [FormatRecord(stream, records[0])] + FormattedLines(stream, records[1..])
  {
  }

  /** A record message never holds a line feed, so the one after it ends its line. */
  lemma RecordHasNoLineFeed(stream: string, record: Json)
    ensures forall i :: 0 <= i < |FormatRecord(stream, record)| ==> FormatRecord(stream, record)[i] != '\n'
  {
    var line := FormatRecord(stream, record);
    assert Printable(line);
  }

  /** The output text splits back into exactly one record message per
      instance delivered before the stream ended or failed. */
  lemma {:induction false} RecordLines<E>(stream: string, records: seq<Json>, tail: seq<Event<Json, E>>)
    requires tail == [] || !tail[0].Item?
    ensures SplitLines(Written(StreamMessages(stream, Items<Json, E>(records) + tail))) == FormattedLines(stream, records)
    decreases |records|
  {
    if records == [] {
      assert Items<Json, E>(records) + tail == tail;
    } else {
      RecordLines(stream, records[1..], tail);
      WrittenFirstLine(stream, records, tail);
      var line := FormatRecord(stream, records[0]);
      RecordHasNoLineFeed(stream, records[0]);
      SplitFirstLine(line, Written(StreamMessages(stream, Items<Json, E>(records[1..]) + tail)));
      FormattedLinesCons(stream, records);
    }
  }

  /** Reading the output back line by line recovers the stream name and every
      instance the walker delivered, in order. */
  lemma RecordsFromOutput<E>(stream: string, fetches: seq<FetchResult<Json, E>>)
    ensures var lines := SplitLines(Written(StreamMessages(stream, Expected(fetches))));
      var records := Instances(fetches[..FirstStop(fetches)]);
      |lines| == |records| &&
      forall i :: 0 <= i < |lines| ==> DecodeRecord(lines[i]) == Some((stream, records[i]))
  {
    var records := Instances(fetches[..FirstStop(fetches)]);
    ExpectedClosedForm(fetches);
    RecordLines(stream, records, [Terminal(FetchAt(fetches, FirstStop(fetches)))]);
    forall i | 0 <= i < |records| ensures DecodeRecord(FormatRecord(stream, records[i])) == Some((stream, records[i])) {
      DecodeFormatRecord(stream, records[i]);
    }
  }
}
