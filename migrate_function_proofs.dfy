/**
 * Properties of the create-or-update workflow, stated over the calls each part
 * of it appends to the service's log.
 */
module MigrateFunctionProofs {
  import opened Wrappers
  import opened LambdaModel
  import opened LambdaService
  import opened MigrateFunction

  // ---------------------------------------------------------------------------
  // Predicates over logged calls

  /** A not-found that the task does not absorb: every one but updateAlias's. */
  predicate Unabsorbed(e: Entry) {
    e.failed == Some(NotFound) && !e.call.UpdateAlias?
  }

  predicate RaisesNotFound(d: seq<Entry>) {
    exists i :: 0 <= i < |d| && Unabsorbed(d[i])
  }

  predicate AllTagCalls(d: seq<Entry>) {
    forall i :: 0 <= i < |d| ==> d[i].call.IsTagCall()
  }

  /** Every call is updateAlias or createAlias with request `req`. */
  predicate AliasCallsWith(d: seq<Entry>, req: AliasRequest) {
    forall i :: 0 <= i < |d| ==> d[i].call.IsAliasCall() && d[i].call.alias == req
  }

  predicate Succeeded(d: seq<Entry>) {
    forall i :: 0 <= i < |d| ==> d[i].failed.None?
  }

  /** Every updateFunctionCode comes after some updateFunctionConfiguration that succeeded. */
  predicate CodeAfterConfiguration(d: seq<Entry>) {
    forall j :: 0 <= j < |d| && d[j].call.UpdateFunctionCode? ==>
      exists i :: 0 <= i < j && d[i].call.UpdateFunctionConfiguration? && d[i].failed.None?
  }

  /** Every createAlias comes right after an updateAlias with the same request that was not found. */
  predicate CreateAliasAfterNotFound(d: seq<Entry>) {
    forall j :: 0 <= j < |d| && d[j].call.CreateAlias? ==>
      0 < j && d[j - 1] == Entry(UpdateAlias(d[j].call.alias), Some(NotFound))
  }

  /** Every alias call names the task's alias, and there are none when it has none. */
  predicate AliasNamed(d: seq<Entry>, alias: Option<string>) {
    forall i :: 0 <= i < |d| && d[i].call.IsAliasCall() ==> alias.Some? && d[i].call.alias.name == alias.value
  }

  /**
   * The calls of a successful update: updateFunctionConfiguration with
   * `req`, then tag calls (none when the task has no tags), then
   * updateFunctionCode at position k, then alias calls, updateAlias first.
   */
  predicate UpdateShapeAt(t: Settings, req: UpdateFunctionConfigurationRequest, d: seq<Entry>, k: int)
    requires Validated(t)
  {
    && 2 <= k < |d|
    && d[1] == Entry(UpdateFunctionConfiguration(req), None)
    && AllTagCalls(d[2..k])
    && (t.tags.None? ==> k == 2)
    && d[k].call == UpdateFunctionCode(CodeRequest(t))
    && (t.alias.None? ==> k == |d| - 1)
    && (k < |d| - 1 ==> d[k + 1].call.UpdateAlias?)
    && (forall i :: k < i < |d| ==> d[i].call.IsAliasCall())
  }

  predicate UpdateShape(t: Settings, req: UpdateFunctionConfigurationRequest, d: seq<Entry>)
    requires Validated(t)
  {
    exists k :: 2 <= k < |d| && UpdateShapeAt(t, req, d, k)
  }

  /** The number of createFunction calls. */
  function CreateCount(d: seq<Entry>): nat {
    if d == [] then 0 else (if d[0].call.CreateFunction? then 1 else 0) + CreateCount(d[1..])
  }

  /** The tags the service holds for a resource, empty when it holds none. */
  function CurrentTags(s: ServiceState, resource: Option<string>): StringMap {
    if resource.Some? && resource.value in s.tags then s.tags[resource.value] else map[]
  }

  // ---------------------------------------------------------------------------
  // Facts about logs

  lemma DeltaStep(s: ServiceState, s1: ServiceState, e: Entry)
    requires s1.log == s.log + [e] && s1.injected == s.injected
    ensures Extends(s, s1) && Delta(s, s1) == [e]
  {
    assert s1.log[..|s.log|] == s.log;
  }

  lemma DeltaChain(s: ServiceState, s1: ServiceState, s2: ServiceState)
    requires Extends(s, s1) && Extends(s1, s2)
    ensures Extends(s, s2) && Delta(s, s2) == Delta(s, s1) + Delta(s1, s2)
  {
    assert s1.log == s.log + Delta(s, s1);
    assert s2.log == s1.log + Delta(s1, s2);
    assert s2.log == s.log + (Delta(s, s1) + Delta(s1, s2));
    assert s2.log[..|s.log|] == s.log;
  }

  lemma DeltaSame(s: ServiceState)
    ensures Extends(s, s) && Delta(s, s) == []
  {
    assert s.log[..|s.log|] == s.log;
  }

  lemma {:induction false} CreateCountConcat(a: seq<Entry>, b: seq<Entry>)
    ensures CreateCount(a + b) == CreateCount(a) + CreateCount(b)
  {
    if a == [] {
      assert a + b == b;
    } else {
      assert (a + b)[1..] == a[1..] + b;
      CreateCountConcat(a[1..], b);
    }
  }

  lemma {:induction false} CreateCountZero(d: seq<Entry>)
    requires forall i :: 0 <= i < |d| ==> !d[i].call.CreateFunction?
    ensures CreateCount(d) == 0
  {
    if d != [] {
      CreateCountZero(d[1..]);
    }
  }

  lemma RaisesNotFoundConcat(a: seq<Entry>, b: seq<Entry>)
    ensures RaisesNotFound(a + b) <==> RaisesNotFound(a) || RaisesNotFound(b)
  {
    if RaisesNotFound(a + b) {
      var i :| 0 <= i < |a + b| && Unabsorbed((a + b)[i]);
      if i < |a| {
        assert Unabsorbed(a[i]);
      } else {
        assert Unabsorbed(b[i - |a|]);
      }
    }
    if RaisesNotFound(a) {
      var i :| 0 <= i < |a| && Unabsorbed(a[i]);
      assert (a + b)[i] == a[i];
    }
    if RaisesNotFound(b) {
      var i :| 0 <= i < |b| && Unabsorbed(b[i]);
      assert (a + b)[|a| + i] == b[i];
    }
  }

  lemma CodeAfterConfigurationConcat(a: seq<Entry>, b: seq<Entry>)
    requires CodeAfterConfiguration(a) && CodeAfterConfiguration(b)
    ensures CodeAfterConfiguration(a + b)
  {
    var d := a + b;
    forall j | 0 <= j < |d| && d[j].call.UpdateFunctionCode?
      ensures exists i :: 0 <= i < j && d[i].call.UpdateFunctionConfiguration? && d[i].failed.None?
    {
      if j < |a| {
        assert a[j] == d[j];
        var i :| 0 <= i < j && a[i].call.UpdateFunctionConfiguration? && a[i].failed.None?;
        assert d[i] == a[i];
      } else {
        assert b[j - |a|] == d[j];
        var i :| 0 <= i < j - |a| && b[i].call.UpdateFunctionConfiguration? && b[i].failed.None?;
        assert d[|a| + i] == b[i];
      }
    }
  }

  lemma CreateAliasAfterNotFoundConcat(a: seq<Entry>, b: seq<Entry>)
    requires CreateAliasAfterNotFound(a) && CreateAliasAfterNotFound(b)
    ensures CreateAliasAfterNotFound(a + b)
  {
    var d := a + b;
    forall j | 0 <= j < |d| && d[j].call.CreateAlias?
      ensures 0 < j && d[j - 1] == Entry(UpdateAlias(d[j].call.alias), Some(NotFound))
    {
      if j < |a| {
        assert a[j] == d[j] && a[j - 1] == d[j - 1];
      } else {
        assert b[j - |a|] == d[j];
        assert b[j - |a| - 1] == d[j - 1];
      }
    }
  }

  lemma AliasNamedConcat(a: seq<Entry>, b: seq<Entry>, alias: Option<string>)
    requires AliasNamed(a, alias) && AliasNamed(b, alias)
    ensures AliasNamed(a + b, alias)
  {
    var d := a + b;
    forall i | 0 <= i < |d| && d[i].call.IsAliasCall()
      ensures alias.Some? && d[i].call.alias.name == alias.value
    {
      if i < |a| {
        assert d[i] == a[i];
      } else {
        assert d[i] == b[i - |a|];
      }
    }
  }

  lemma RaisesNotFoundSingle(e: Entry)
    ensures RaisesNotFound([e]) <==> Unabsorbed(e)
  {
    assert [e][0] == e;
  }

  /** Calls that are neither configuration nor code updates keep the ordering property. */
  lemma CodeAfterConfigurationNoCode(d: seq<Entry>)
    requires forall i :: 0 <= i < |d| ==> !d[i].call.UpdateFunctionCode?
    ensures CodeAfterConfiguration(d)
  {
  }

  lemma NoCreateAlias(d: seq<Entry>)
    requires forall i :: 0 <= i < |d| ==> !d[i].call.CreateAlias?
    ensures CreateAliasAfterNotFound(d)
  {
  }

  // ---------------------------------------------------------------------------
  // Input validation

  /**
   * Validation comes before any call: invalid settings leave the service
   * untouched and end with the validation error; valid ones start with getFunction.
   */
  lemma ValidationPrecedesCalls(t: Settings, s: ServiceState)
    ensures var r := CreateOrUpdateFunctionSpec(t, s);
      && (!Validated(t) ==>
            r.run == Run(ValidateVariables(t.functionName, t.zipFile, t.s3File), s) && r.created.None?)
      && (Validated(t) ==>
            |Delta(s, r.run.state)| > 0 &&
            Delta(s, r.run.state)[0] == Entry(GetFunction(t.functionName.value),
                                              GetFunctionStep(s, t.functionName.value).response.Failed()))
  {
    if Validated(t) {
      var got := GetFunctionStep(s, t.functionName.value);
      var e := Entry(GetFunction(t.functionName.value), got.response.Failed());
      var tried := TryUpdateSpec(t, s);
      var r := CreateOrUpdateFunctionSpec(t, s);
      DeltaStep(s, got.state, e);
      DeltaChain(s, got.state, tried.state);
      DeltaChain(s, tried.state, r.run.state);
      assert Delta(s, tried.state)[0] == e;
    }
  }

  // ---------------------------------------------------------------------------
  // Alias upsert

  /**
   * createOrUpdateAlias tries updateAlias, and calls createAlias with the same
   * request exactly when updateAlias was not found. Only createAlias's not-found
   * escapes it.
   */
  lemma AliasUpsert(t: Settings, version: Version, s: ServiceState)
    requires Validated(t) && t.alias.Some?
    ensures var r := CreateOrUpdateAliasSpec(t, version, s);
      var d := Delta(s, r.state);
      var req := AliasRequestFor(t, version);
      && 1 <= |d| <= 2
      && d[0] == Entry(UpdateAlias(req), UpdateAliasStep(s, req).response.Failed())
      && (|d| == 2 <==> d[0].failed == Some(NotFound))
      && (|d| == 2 ==> d[1].call == CreateAlias(req))
      && AliasCallsWith(d, req)
      && CreateAliasAfterNotFound(d)
      && (r.outcome.Done? <==> d[|d| - 1].failed.None?)
      && (r.outcome == Threw(ResourceNotFoundException) <==> RaisesNotFound(d))
  {
    var req := AliasRequestFor(t, version);
    var u := UpdateAliasStep(s, req);
    DeltaStep(s, u.state, Entry(UpdateAlias(req), u.response.Failed()));
    if u.response.Err? && u.response.failure == NotFound {
      var c := CreateAliasStep(u.state, req);
      DeltaStep(u.state, c.state, Entry(CreateAlias(req), c.response.Failed()));
      DeltaChain(s, u.state, c.state);
      var d := Delta(s, c.state);
      assert d == [Entry(UpdateAlias(req), Some(NotFound)), Entry(CreateAlias(req), c.response.Failed())];
      assert RaisesNotFound(d) <==> Unabsorbed(d[1]);
    } else {
      assert !Unabsorbed(Delta(s, u.state)[0]);
    }
  }

  // ---------------------------------------------------------------------------
  // Tag reconciliation

  predicate UntagIssued(d: seq<Entry>) {
    exists i :: 0 <= i < |d| && d[i].call.UntagResource?
  }

  predicate TagIssued(d: seq<Entry>) {
    exists i :: 0 <= i < |d| && d[i].call.TagResource?
  }

  /** Every untagResource is the second call, with these keys. */
  predicate UntagsAre(d: seq<Entry>, arn: Option<string>, keys: set<string>) {
    forall i :: 0 <= i < |d| && d[i].call.UntagResource? ==> i == 1 && d[i].call == UntagResource(arn, keys)
  }

  /** Every tagResource is the last call, with these tags. */
  predicate TagsAre(d: seq<Entry>, arn: Option<string>, tags: StringMap) {
    forall i :: 0 <= i < |d| && d[i].call.TagResource? ==> i == |d| - 1 && d[i].call == TagResource(arn, tags)
  }

  predicate UntagsSucceeded(d: seq<Entry>) {
    forall i :: 0 <= i < |d| && d[i].call.UntagResource? ==> d[i].failed.None?
  }

  /** The facts about a log made of listTags, at most one untagResource, and at most one tagResource. */
  lemma TagLogFacts(arn: Option<string>, keys: set<string>, tags: StringMap, e0: Entry, u: seq<Entry>, g: seq<Entry>)
    requires e0.call == ListTags(arn)
    requires |u| <= 1 && (u != [] ==> u[0].call == UntagResource(arn, keys))
    requires |g| <= 1 && (g != [] ==> g[0].call == TagResource(arn, tags))
    ensures var d := [e0] + u + g;
      && d[0] == e0
      && AllTagCalls(d)
      && (UntagIssued(d) <==> u != [])
      && UntagsAre(d, arn, keys)
      && (TagIssued(d) <==> g != [])
      && TagsAre(d, arn, tags)
      && (UntagsSucceeded(d) <==> u == [] || u[0].failed.None?)
      && (RaisesNotFound(d) <==> Unabsorbed(e0) || (u != [] && Unabsorbed(u[0])) || (g != [] && Unabsorbed(g[0])))
      && (Succeeded(d) <==> e0.failed.None? && (u == [] || u[0].failed.None?) && (g == [] || g[0].failed.None?))
  {
    var d := [e0] + u + g;
    forall i | 0 <= i < |d|
      ensures d[i] == if i == 0 then e0 else if i <= |u| then u[i - 1] else g[i - 1 - |u|]
    {
    }
    if u != [] {
      assert d[1] == u[0];
    }
    if g != [] {
      assert d[|d| - 1] == g[0];
    }
    RaisesNotFoundConcat([e0] + u, g);
    RaisesNotFoundConcat([e0], u);
    RaisesNotFoundSingle(e0);
    if u != [] {
      RaisesNotFoundSingle(u[0]);
      assert u == [u[0]];
    }
    if g != [] {
      RaisesNotFoundSingle(g[0]);
      assert g == [g[0]];
    }
  }

  /**
   * tagFunction, under any failures: it makes no call when tags is unset;
   * otherwise it lists the tags, untags exactly when the listed tags are
   * non-empty (with the keys not desired, possibly none), and tags with the
   * whole desired map exactly when the earlier calls succeeded and it is non-empty.
   */
  lemma TagReconciliation(t: Settings, config: FunctionConfiguration, s: ServiceState)
    ensures var r := TagFunctionSpec(t, config, s);
      var d := Delta(s, r.state);
      var arn := config.functionArn;
      && AllTagCalls(d)
      && r.state.functions == s.functions && r.state.aliases == s.aliases
      && (t.tags.None? <==> d == [])
      && (r.outcome == Threw(ResourceNotFoundException) <==> RaisesNotFound(d))
      && (r.outcome.Done? ==> Succeeded(d))
      && (t.tags.Some? ==>
            var desired := t.tags.value;
            var listed := ResourceFailure(s, arn).None?;
            var current := CurrentTags(s, arn);
            && d[0] == Entry(ListTags(arn), ResourceFailure(s, arn))
            && (UntagIssued(d) <==> listed && current != map[])
            && UntagsAre(d, arn, current.Keys - desired.Keys)
            && (TagIssued(d) <==> listed && desired != map[] && UntagsSucceeded(d))
            && TagsAre(d, arn, desired))
  {
    var r := TagFunctionSpec(t, config, s);
    if t.tags.None? {
      DeltaSame(s);
      return;
    }
    var desired := t.tags.value;
    var arn := config.functionArn;
    var current := CurrentTags(s, arn);
    var keys := current.Keys - desired.Keys;
    var listed := ListTagsStep(s, arn);
    var e0 := Entry(ListTags(arn), listed.response.Failed());
    DeltaStep(s, listed.state, e0);
    assert listed.response.Failed() == ResourceFailure(s, arn);
    if listed.response.Err? {
      assert Delta(s, r.state) == [e0] + [] + [];
      TagLogFacts(arn, keys, desired, e0, [], []);
      return;
    }
    assert listed.response.value.tags == current;
    assert TagKeysToRemove(current, desired) == keys;
    var untagged :=
      if current != map[] then UntagResourceStep(listed.state, arn, keys)
      else Step(listed.state, Ok(()));
    var u := if current != map[] then [Entry(UntagResource(arn, keys), untagged.response.Failed())] else [];
    if current != map[] {
      DeltaStep(listed.state, untagged.state, u[0]);
    } else {
      DeltaSame(listed.state);
    }
    DeltaChain(s, listed.state, untagged.state);
    assert Delta(s, untagged.state) == [e0] + u;
    if untagged.response.Err? {
      assert r.state == untagged.state;
      assert Delta(s, r.state) == [e0] + u + [];
      TagLogFacts(arn, keys, desired, e0, u, []);
      return;
    }
    if desired != map[] {
      var tagged := TagResourceStep(untagged.state, arn, desired);
      var e2 := Entry(TagResource(arn, desired), tagged.response.Failed());
      DeltaStep(untagged.state, tagged.state, e2);
      DeltaChain(s, untagged.state, tagged.state);
      assert Delta(s, r.state) == [e0] + u + [e2];
      TagLogFacts(arn, keys, desired, e0, u, [e2]);
    } else {
      assert r.state == untagged.state;
      assert Delta(s, r.state) == [e0] + u + [];
      TagLogFacts(arn, keys, desired, e0, u, []);
    }
  }

  /** Deleting the keys not desired and then adding the desired entries leaves exactly the desired map. */
  lemma TagsConverge(current: StringMap, desired: StringMap)
    ensures var untagged := if current != map[] then current - TagKeysToRemove(current, desired) else current;
      (if desired != map[] then untagged + desired else untagged) == desired
  {
    var untagged := if current != map[] then current - TagKeysToRemove(current, desired) else current;
    if desired == map[] {
      assert untagged.Keys == {};
    } else {
      var result := untagged + desired;
      assert result.Keys == desired.Keys;
      assert forall k :: k in desired ==> result[k] == desired[k];
    }
  }

  /**
   * With no injected failures and a resource the service knows, tagFunction
   * succeeds, issues exactly the calls below, and leaves the resource with
   * exactly the desired tags.
   */
  lemma TagsReachDesired(t: Settings, config: FunctionConfiguration, s: ServiceState)
    requires Quiet(s) && t.tags.Some?
    requires config.functionArn.Some? && config.functionArn.value in s.tags
    ensures var r := TagFunctionSpec(t, config, s);
      var arn := config.functionArn.value;
      var current := s.tags[arn];
      var desired := t.tags.value;
      && r.outcome == Done
      && r.state.tags == s.tags[arn := desired]
      && r.state.functions == s.functions && r.state.aliases == s.aliases
      && r.state.log == s.log + [Entry(ListTags(Some(arn)), None)]
           + (if current != map[] then [Entry(UntagResource(Some(arn), current.Keys - desired.Keys), None)] else [])
           + (if desired != map[] then [Entry(TagResource(Some(arn), desired), None)] else [])
  {
    var arn := config.functionArn.value;
    var current := s.tags[arn];
    var desired := t.tags.value;
    var listed := ListTagsStep(s, config.functionArn);
    QuietAfter(s, listed.state);
    var keys := TagKeysToRemove(current, desired);
    assert keys == current.Keys - desired.Keys;
    var untagged :=
      if current != map[] then UntagResourceStep(listed.state, config.functionArn, keys)
      else Step(listed.state, Ok(()));
    if current != map[] {
      QuietAfter(s, untagged.state);
    }
    TagsConverge(current, desired);
  }

  // ---------------------------------------------------------------------------
  // The parts of the update path

  /**
   * updateFunctionConfiguration issues the reconciled configuration update
   * before any tag call, and makes no call at all when Runtime.fromValue raises.
   */
  lemma ConfigurationThenTags(t: Settings, config: FunctionConfiguration, s: ServiceState)
    requires Validated(t)
    ensures var r := UpdateFunctionConfigurationSpec(t, config, s);
      var d := Delta(s, r.state);
      && (ConfigRequest(t, config).None? <==> d == [])
      && (ConfigRequest(t, config).None? ==> r.outcome == Threw(IllegalArgumentException(RuntimeValueMissing)))
      && (d != [] ==>
            && d[0].call == UpdateFunctionConfiguration(ConfigRequest(t, config).value)
            && AllTagCalls(d[1..])
            && (t.tags.None? ==> |d| == 1)
            && (d[0].failed.Some? ==> |d| == 1 && r.outcome == Threw(Raise(d[0].failed.value))))
      && (r.outcome.Done? ==> Succeeded(d))
      && (r.outcome == Threw(ResourceNotFoundException) <==> RaisesNotFound(d))
  {
    var r := UpdateFunctionConfigurationSpec(t, config, s);
    match ConfigRequest(t, config)
    case None =>
      DeltaSame(s);
    case Some(req) =>
      var u := UpdateFunctionConfigurationStep(s, req);
      var e := Entry(UpdateFunctionConfiguration(req), u.response.Failed());
      DeltaStep(s, u.state, e);
      if u.response.Err? {
        assert Delta(s, r.state) == [e];
        RaisesNotFoundSingle(e);
      } else {
        TagReconciliation(t, config, u.state);
        DeltaChain(s, u.state, r.state);
        var d := Delta(s, r.state);
        assert d[1..] == Delta(u.state, r.state);
        RaisesNotFoundConcat([e], Delta(u.state, r.state));
        assert !RaisesNotFound([e]);
      }
  }

  /**
   * updateFunctionCode issues the code update with the task's publish flag, then
   * only alias calls, carrying the version that the code update returned.
   */
  lemma CodeThenAlias(t: Settings, s: ServiceState)
    requires Validated(t)
    ensures var r := UpdateFunctionCodeSpec(t, s);
      var d := Delta(s, r.state);
      var u := UpdateFunctionCodeStep(s, CodeRequest(t));
      && |d| >= 1
      && d[0] == Entry(UpdateFunctionCode(CodeRequest(t)), u.response.Failed())
      && d[0].call.code.publish == t.publish
      && (|d| > 1 <==> u.response.Ok? && t.alias.Some?)
      && (|d| > 1 ==> AliasCallsWith(d[1..], AliasRequestFor(t, u.response.value.version)))
      && (|d| > 1 ==> d[1].call.UpdateAlias?)
      && CreateAliasAfterNotFound(d)
      && AliasNamed(d, t.alias)
      && (r.outcome.Done? ==> !RaisesNotFound(d))
      && (r.outcome == Threw(ResourceNotFoundException) <==> RaisesNotFound(d))
  {
    var r := UpdateFunctionCodeSpec(t, s);
    var u := UpdateFunctionCodeStep(s, CodeRequest(t));
    var e := Entry(UpdateFunctionCode(CodeRequest(t)), u.response.Failed());
    DeltaStep(s, u.state, e);
    if u.response.Ok? && t.alias.Some? {
      AliasUpsert(t, u.response.value.version, u.state);
      DeltaChain(s, u.state, r.state);
      var d := Delta(s, r.state);
      var rest := Delta(u.state, r.state);
      assert d == [e] + rest;
      assert d[1..] == rest;
      RaisesNotFoundConcat([e], rest);
      assert !RaisesNotFound([e]);
      NoCreateAlias([e]);
      CreateAliasAfterNotFoundConcat([e], rest);
      AliasNamedConcat([e], rest, t.alias);
    } else {
      assert Delta(s, r.state) == [e];
      RaisesNotFoundSingle(e);
    }
  }

  // ---------------------------------------------------------------------------
  // Paths of createOrUpdateFunction

  /**
   * createFunction issues createFunction with every setting of the task, then
   * only alias calls, carrying the version that createFunction returned.
   */
  lemma CreateThenAlias(t: Settings, s: ServiceState)
    requires Validated(t)
    ensures var r := CreateFunctionSpec(t, s);
      var d := Delta(s, r.run.state);
      var c := CreateFunctionStep(s, CreateRequest(t));
      && |d| >= 1
      && d[0] == Entry(CreateFunction(CreateRequest(t)), c.response.Failed())
      && d[0].call.create.publish == t.publish
      && (r.created.Some? <==> c.response.Ok?)
      && (r.created.Some? ==> r.created.value == c.response.value)
      && (|d| > 1 <==> r.created.Some? && t.alias.Some?)
      && (|d| > 1 ==> AliasCallsWith(d[1..], AliasRequestFor(t, r.created.value.version)))
      && (|d| > 1 ==> d[1].call.UpdateAlias?)
      && CreateCount(d) == 1
      && CreateAliasAfterNotFound(d)
      && AliasNamed(d, t.alias)
  {
    var r := CreateFunctionSpec(t, s);
    var c := CreateFunctionStep(s, CreateRequest(t));
    var e := Entry(CreateFunction(CreateRequest(t)), c.response.Failed());
    DeltaStep(s, c.state, e);
    var d := Delta(s, r.run.state);
    if c.response.Ok? && t.alias.Some? {
      AliasUpsert(t, c.response.value.version, c.state);
      DeltaChain(s, c.state, r.run.state);
      var rest := Delta(c.state, r.run.state);
      assert d == [e] + rest;
      assert d[1..] == rest;
      NoCreateAlias([e]);
      CreateAliasAfterNotFoundConcat([e], rest);
      CreateCountZero(rest);
      CreateCountConcat([e], rest);
      assert CreateCount([e]) == 1;
      AliasNamedConcat([e], rest, t.alias);
    } else {
      assert d == [e];
      assert CreateCount([e]) == 1 + CreateCount([]);
    }
  }

  /** How the log of the try block splits into getFunction, the configuration part and the code part. */
  lemma TryLog(t: Settings, s: ServiceState)
    requires Validated(t)
    ensures var r := TryUpdateSpec(t, s);
      var got := GetFunctionStep(s, t.functionName.value);
      var e := Entry(GetFunction(t.functionName.value), got.response.Failed());
      && Extends(got.state, r.state)
      && Delta(s, r.state) == [e] + Delta(got.state, r.state)
      && (got.response.Err? ==> r == Run(Threw(Raise(got.response.failure)), got.state))
      && (got.response.Ok? ==>
            var c := UpdateFunctionConfigurationSpec(t, FetchedConfiguration(got.response.value), got.state);
            && (c.outcome.Threw? ==> r == c)
            && (c.outcome.Done? ==> r == UpdateFunctionCodeSpec(t, c.state)))
  {
    var r := TryUpdateSpec(t, s);
    var got := GetFunctionStep(s, t.functionName.value);
    DeltaStep(s, got.state, Entry(GetFunction(t.functionName.value), got.response.Failed()));
    if got.response.Err? {
      DeltaSame(got.state);
    } else {
      var c := UpdateFunctionConfigurationSpec(t, FetchedConfiguration(got.response.value), got.state);
      DeltaChain(got.state, c.state, r.state);
    }
    DeltaChain(s, got.state, r.state);
  }

  /** The facts about a log made of getFunction, a configuration part and a code part. */
  lemma TryLogFacts(t: Settings, e: Entry, dc: seq<Entry>, du: seq<Entry>)
    requires Validated(t)
    requires e.call.GetFunction?
    requires dc == [] || (dc[0].call.UpdateFunctionConfiguration? && AllTagCalls(dc[1..]))
    requires du != [] ==>
      && dc != []
      && dc[0].failed.None?
      && du[0].call == UpdateFunctionCode(CodeRequest(t))
      && (forall i :: 1 <= i < |du| ==> du[i].call.IsAliasCall())
      && (|du| > 1 ==> du[1].call.UpdateAlias?)
      && CreateAliasAfterNotFound(du)
      && AliasNamed(du, t.alias)
    ensures var d := [e] + dc + du;
      && |d| >= 1 && d[0] == e
      && CreateCount(d) == 0
      && CodeAfterConfiguration(d)
      && CreateAliasAfterNotFound(d)
      && AliasNamed(d, t.alias)
      && (du != [] && dc[0].failed.None? && (t.tags.None? ==> |dc| == 1) && (t.alias.None? ==> |du| == 1) ==>
            UpdateShapeAt(t, dc[0].call.configuration, d, 1 + |dc|))
  {
    var d := [e] + dc + du;
    forall i | 0 <= i < |d|
      ensures d[i] == if i == 0 then e else if i <= |dc| then dc[i - 1] else du[i - 1 - |dc|]
    {
    }
    forall i | 0 <= i < |dc| ensures dc[i].call.UpdateFunctionConfiguration? || dc[i].call.IsTagCall() {
      if i > 0 {
        assert dc[i] == dc[1..][i - 1];
      }
    }
    CreateCountZero(d);
    forall j | 0 <= j < |d| && d[j].call.UpdateFunctionCode?
      ensures exists i :: 0 <= i < j && d[i].call.UpdateFunctionConfiguration? && d[i].failed.None?
    {
      assert d[1] == dc[0];
    }
    forall j | 0 <= j < |d| && d[j].call.CreateAlias?
      ensures 0 < j && d[j - 1] == Entry(UpdateAlias(d[j].call.alias), Some(NotFound))
    {
      var k := j - 1 - |dc|;
      assert d[j] == du[k];
      assert d[j - 1] == du[k - 1];
    }
    forall i | 0 <= i < |d| && d[i].call.IsAliasCall()
      ensures t.alias.Some? && d[i].call.alias.name == t.alias.value
    {
      assert d[i] == du[i - 1 - |dc|];
    }
    if du != [] && dc[0].failed.None? && (t.tags.None? ==> |dc| == 1) && (t.alias.None? ==> |du| == 1) {
      var k := 1 + |dc|;
      assert d[1] == dc[0];
      assert d[2..k] == dc[1..];
      forall i | k < i < |d| ensures d[i].call.IsAliasCall() {
        assert d[i] == du[i - k];
      }
    }
  }

  /**
   * The log of the try block in three parts: the getFunction entry, the
   * configuration part (empty when getFunction failed) and the code part
   * (empty when the configuration part raised).
   */
  lemma TryParts(t: Settings, s: ServiceState) returns (e: Entry, dc: seq<Entry>, du: seq<Entry>)
    requires Validated(t)
    ensures var r := TryUpdateSpec(t, s);
      var got := GetFunctionStep(s, t.functionName.value);
      && e == Entry(GetFunction(t.functionName.value), got.response.Failed())
      && Delta(s, r.state) == [e] + dc + du
      && (got.response.Err? ==> dc == [] && du == [] && r.outcome == Threw(Raise(got.response.failure)))
      && (got.response.Ok? ==>
            var config := FetchedConfiguration(got.response.value);
            var c := UpdateFunctionConfigurationSpec(t, config, got.state);
            && dc == Delta(got.state, c.state)
            && (c.outcome.Threw? ==> du == [] && r.outcome == c.outcome)
            && (c.outcome.Done? ==> du == Delta(c.state, r.state) && r == UpdateFunctionCodeSpec(t, c.state)))
  {
    var r := TryUpdateSpec(t, s);
    var got := GetFunctionStep(s, t.functionName.value);
    e := Entry(GetFunction(t.functionName.value), got.response.Failed());
    TryLog(t, s);
    if got.response.Err? {
      DeltaSame(got.state);
      dc, du := [], [];
      return;
    }
    var config := FetchedConfiguration(got.response.value);
    var c := UpdateFunctionConfigurationSpec(t, config, got.state);
    dc := Delta(got.state, c.state);
    if c.outcome.Threw? {
      du := [];
      return;
    }
    du := Delta(c.state, r.state);
    DeltaChain(got.state, c.state, r.state);
  }

  /**
   * The try block: getFunction, then (when found) the configuration update and
   * its tag calls, then the code update and its alias calls. It never creates a
   * function and makes alias calls only with the task's alias.
   */
  lemma TryBlock(t: Settings, s: ServiceState)
    requires Validated(t)
    ensures var r := TryUpdateSpec(t, s);
      var d := Delta(s, r.state);
      var got := GetFunctionStep(s, t.functionName.value);
      && |d| >= 1
      && d[0] == Entry(GetFunction(t.functionName.value), got.response.Failed())
      && (got.response.Err? ==> |d| == 1)
      && CreateCount(d) == 0
      && CodeAfterConfiguration(d)
      && CreateAliasAfterNotFound(d)
      && AliasNamed(d, t.alias)
  {
    var e, dc, du := TryParts(t, s);
    var got := GetFunctionStep(s, t.functionName.value);
    if got.response.Ok? {
      var config := FetchedConfiguration(got.response.value);
      var c := UpdateFunctionConfigurationSpec(t, config, got.state);
      ConfigurationThenTags(t, config, got.state);
      if c.outcome.Done? {
        CodeThenAlias(t, c.state);
        forall i | 1 <= i < |du| ensures du[i].call.IsAliasCall() {
          assert du[i] == du[1..][i - 1];
        }
      }
    }
    TryLogFacts(t, e, dc, du);
  }

  /** The try block raises not-found exactly when one of its calls other than updateAlias was not found. */
  lemma TryBlockNotFound(t: Settings, s: ServiceState)
    requires Validated(t)
    ensures var r := TryUpdateSpec(t, s);
      r.outcome == Threw(ResourceNotFoundException) <==> RaisesNotFound(Delta(s, r.state))
  {
    var e, dc, du := TryParts(t, s);
    var got := GetFunctionStep(s, t.functionName.value);
    RaisesNotFoundConcat([e] + dc, du);
    RaisesNotFoundConcat([e], dc);
    RaisesNotFoundSingle(e);
    if got.response.Ok? {
      var config := FetchedConfiguration(got.response.value);
      var c := UpdateFunctionConfigurationSpec(t, config, got.state);
      ConfigurationThenTags(t, config, got.state);
      if c.outcome.Done? {
        CodeThenAlias(t, c.state);
      }
    }
  }

  /**
   * A try block that completes made its calls in this order: getFunction,
   * the reconciled configuration update, the tag calls, the code update, the
   * alias calls.
   */
  lemma TryBlockOrder(t: Settings, s: ServiceState)
    requires Validated(t)
    ensures var r := TryUpdateSpec(t, s);
      var got := GetFunctionStep(s, t.functionName.value);
      r.outcome.Done? ==>
        && got.response.Ok?
        && ConfigRequest(t, FetchedConfiguration(got.response.value)).Some?
        && UpdateShape(t, ConfigRequest(t, FetchedConfiguration(got.response.value)).value, Delta(s, r.state))
  {
    var r := TryUpdateSpec(t, s);
    var e, dc, du := TryParts(t, s);
    var got := GetFunctionStep(s, t.functionName.value);
    if r.outcome.Done? {
      var config := FetchedConfiguration(got.response.value);
      var c := UpdateFunctionConfigurationSpec(t, config, got.state);
      ConfigurationThenTags(t, config, got.state);
      CodeThenAlias(t, c.state);
      forall i | 1 <= i < |du| ensures du[i].call.IsAliasCall() {
        assert du[i] == du[1..][i - 1];
      }
      TryLogFacts(t, e, dc, du);
      assert UpdateShapeAt(t, ConfigRequest(t, config).value, Delta(s, r.state), 1 + |dc|);
    }
  }

  /** How the log of a validated run splits into the try block and the createFunction fallback. */
  lemma RunParts(t: Settings, s: ServiceState)
    requires Validated(t)
    ensures var r := CreateOrUpdateFunctionSpec(t, s);
      var tried := TryUpdateSpec(t, s);
      && Extends(tried.state, r.run.state)
      && Delta(s, r.run.state) == Delta(s, tried.state) + Delta(tried.state, r.run.state)
      && (tried.outcome == Threw(ResourceNotFoundException) ==> r == CreateFunctionSpec(t, tried.state))
      && (tried.outcome != Threw(ResourceNotFoundException) ==> r == CreateRun(tried, None))
  {
    var r := CreateOrUpdateFunctionSpec(t, s);
    var tried := TryUpdateSpec(t, s);
    if tried.outcome != Threw(ResourceNotFoundException) {
      DeltaSame(tried.state);
    }
    DeltaChain(s, tried.state, r.run.state);
  }

  /**
   * The not-found catch covers the whole try block: createFunction is called
   * exactly once when a call of the try block other than updateAlias was not
   * found, right after that call, and never otherwise.
   */
  lemma NotFoundFallsBackToCreate(t: Settings, s: ServiceState)
    requires Validated(t)
    ensures var r := CreateOrUpdateFunctionSpec(t, s);
      var tried := TryUpdateSpec(t, s);
      var d := Delta(s, r.run.state);
      var dt := Delta(s, tried.state);
      && |dt| <= |d| && d[..|dt|] == dt
      && CreateCount(d) == (if RaisesNotFound(dt) then 1 else 0)
      && (RaisesNotFound(dt) ==> |dt| < |d| && d[|dt|].call == CreateFunction(CreateRequest(t)))
      && (!RaisesNotFound(dt) ==> r.run == tried && r.created.None?)
  {
    var r := CreateOrUpdateFunctionSpec(t, s);
    var tried := TryUpdateSpec(t, s);
    TryBlock(t, s);
    TryBlockNotFound(t, s);
    RunParts(t, s);
    var dt := Delta(s, tried.state);
    if RaisesNotFound(dt) {
      CreateThenAlias(t, tried.state);
      var dc := Delta(tried.state, r.run.state);
      CreateCountConcat(dt, dc);
      assert (dt + dc)[..|dt|] == dt;
      assert (dt + dc)[|dt|] == dc[0];
    } else {
      DeltaSame(tried.state);
      assert Delta(s, r.run.state) == dt;
      assert Delta(s, r.run.state)[..|dt|] == dt;
    }
  }

  /** In every run, each updateFunctionCode comes after an updateFunctionConfiguration. */
  lemma ConfigurationBeforeCode(t: Settings, s: ServiceState)
    ensures var r := CreateOrUpdateFunctionSpec(t, s);
      CodeAfterConfiguration(Delta(s, r.run.state))
  {
    var r := CreateOrUpdateFunctionSpec(t, s);
    if !Validated(t) {
      DeltaSame(s);
      return;
    }
    var tried := TryUpdateSpec(t, s);
    TryBlock(t, s);
    RunParts(t, s);
    var dt := Delta(s, tried.state);
    if tried.outcome == Threw(ResourceNotFoundException) {
      CreateThenAlias(t, tried.state);
      var dc := Delta(tried.state, r.run.state);
      assert |dc| >= 1;
      forall i | 0 <= i < |dc| ensures !dc[i].call.UpdateFunctionCode? {
        if i > 0 {
          assert dc[i] in dc[1..];
        }
      }
      CodeAfterConfigurationNoCode(dc);
      CodeAfterConfigurationConcat(dt, dc);
    } else {
      DeltaSame(tried.state);
    }
  }

  /**
   * In every run, createAlias is called only right after an updateAlias with the
   * same request that was not found, and alias calls are made only when an
   * alias is set, with that alias.
   */
  lemma AliasOnlyAfterUpdateNotFound(t: Settings, s: ServiceState)
    ensures var r := CreateOrUpdateFunctionSpec(t, s);
      var d := Delta(s, r.run.state);
      && CreateAliasAfterNotFound(d)
      && AliasNamed(d, t.alias)
  {
    var r := CreateOrUpdateFunctionSpec(t, s);
    if !Validated(t) {
      DeltaSame(s);
      return;
    }
    var tried := TryUpdateSpec(t, s);
    TryBlock(t, s);
    RunParts(t, s);
    var dt := Delta(s, tried.state);
    if tried.outcome == Threw(ResourceNotFoundException) {
      CreateThenAlias(t, tried.state);
      var dc := Delta(tried.state, r.run.state);
      CreateAliasAfterNotFoundConcat(dt, dc);
      AliasNamedConcat(dt, dc, t.alias);
    } else {
      DeltaSame(tried.state);
    }
  }

  // ---------------------------------------------------------------------------
  // Configuration reconciliation

  /** createFunction sends every setting as the task has it; publish and the environment stay null when unset. */
  lemma CreateRequestFromTask(t: Settings)
    requires Validated(t)
    ensures TakenFromTask(t, CreateRequest(t))
  {
  }

  lemma DefaultConfigurationIsNodejs(t: Settings)
    requires Validated(t)
    ensures var req := ConfigRequest(t, FetchedConfiguration(GetFunctionResult(None)));
      && req.Some?
      && req.value.runtime == (if t.runtime.Some? then t.runtime else Some(Nodejs))
      && req.value.environment == Variables(t.environment)
  {
    assert Variables(None) == map[];
  }

  // ---------------------------------------------------------------------------
  // Runs with no injected failures

  lemma QuietAfter(s: ServiceState, s1: ServiceState)
    requires Quiet(s) && s1.injected == s.injected && |s.log| <= |s1.log|
    ensures Quiet(s1) && Scheduled(s1).None?
  {
  }

  /**
   * With no injected failures and no function of that name, the run creates the
   * function once and, when an alias is set, creates the alias at the version
   * that createFunction returned after updateAlias was not found.
   */
  lemma CreatePath(t: Settings, s: ServiceState)
    requires Validated(t) && Quiet(s)
    requires t.functionName.value !in s.functions
    requires t.alias.Some? ==> AliasKey(t.functionName.value, t.alias.value) !in s.aliases
    ensures var r := CreateOrUpdateFunctionSpec(t, s);
      var name := t.functionName.value;
      var version := ReportedVersion(NextPublished(0, t.publish), t.publish);
      && r.run.outcome == Done
      && r.created == Some(CreateFunctionResult(FunctionArn(name), version))
      && name in r.run.state.functions
      && r.run.state.functions[name]
           == FunctionRecord(Some(CreatedConfiguration(CreateRequest(t))), CodeOf(t), NextPublished(0, t.publish))
      && r.run.state.tags[FunctionArn(name)] == Variables(t.tags)
      && (t.alias.Some? ==> r.run.state.aliases == s.aliases[AliasKey(name, t.alias.value) := version])
      && (t.alias.None? ==> r.run.state.aliases == s.aliases)
      && r.run.state.log == s.log
           + [Entry(GetFunction(name), Some(NotFound)), Entry(CreateFunction(CreateRequest(t)), None)]
           + (if t.alias.Some? then
                [Entry(UpdateAlias(AliasRequestFor(t, version)), Some(NotFound)),
                 Entry(CreateAlias(AliasRequestFor(t, version)), None)]
              else [])
  {
    var name := t.functionName.value;
    var got := GetFunctionStep(s, name);
    QuietAfter(s, got.state);
    var c := CreateFunctionStep(got.state, CreateRequest(t));
    QuietAfter(s, c.state);
    if t.alias.Some? {
      var version := c.response.value.version;
      var u := UpdateAliasStep(c.state, AliasRequestFor(t, version));
      QuietAfter(s, u.state);
    }
  }

  /**
   * With no injected failures, the getFunction and configuration part of the
   * update path succeed: the configuration becomes the reconciled request and
   * the tags of the function's resource become the desired map.
   */
  lemma UpdatePathConfiguration(t: Settings, s: ServiceState)
    requires Validated(t) && Quiet(s)
    requires t.functionName.value in s.functions
    requires ConfigRequest(t, FetchedConfiguration(GetFunctionResult(s.functions[t.functionName.value].configuration))).Some?
    requires t.tags.Some? ==>
      FetchedConfiguration(GetFunctionResult(s.functions[t.functionName.value].configuration)).functionArn.Some?
    requires t.tags.Some? ==>
      FetchedConfiguration(GetFunctionResult(s.functions[t.functionName.value].configuration)).functionArn.value in s.tags
    ensures var name := t.functionName.value;
      var got := GetFunctionStep(s, name);
      var config := FetchedConfiguration(GetFunctionResult(s.functions[name].configuration));
      var c := UpdateFunctionConfigurationSpec(t, config, got.state);
      && got.response == Ok(GetFunctionResult(s.functions[name].configuration))
      && c.outcome == Done
      && Quiet(c.state)
      && c.state.functions == s.functions[name :=
           s.functions[name].(configuration := Some(UpdatedConfiguration(ConfigRequest(t, config).value)))]
      && (t.tags.Some? ==> c.state.tags == s.tags[config.functionArn.value := t.tags.value])
      && (t.tags.None? ==> c.state.tags == s.tags)
      && c.state.aliases == s.aliases
  {
    var name := t.functionName.value;
    var got := GetFunctionStep(s, name);
    QuietAfter(s, got.state);
    var config := FetchedConfiguration(got.response.value);
    var req := ConfigRequest(t, config).value;
    var u := UpdateFunctionConfigurationStep(got.state, req);
    QuietAfter(s, u.state);
    var tagged := TagFunctionSpec(t, config, u.state);
    if t.tags.Some? {
      TagsReachDesired(t, config, u.state);
    }
    QuietAfter(s, tagged.state);
  }

  /**
   * With no injected failures, a function of that name, a runtime to use and a
   * known resource for its tags, the run updates the configuration, converges
   * the tags to the desired map, updates the code, and points the alias at the
   * version the code update returned.
   */
  lemma UpdatePath(t: Settings, s: ServiceState)
    requires Validated(t) && Quiet(s)
    requires t.functionName.value in s.functions
    requires ConfigRequest(t, FetchedConfiguration(GetFunctionResult(s.functions[t.functionName.value].configuration))).Some?
    requires t.tags.Some? ==>
      FetchedConfiguration(GetFunctionResult(s.functions[t.functionName.value].configuration)).functionArn.Some?
    requires t.tags.Some? ==>
      FetchedConfiguration(GetFunctionResult(s.functions[t.functionName.value].configuration)).functionArn.value in s.tags
    ensures var r := CreateOrUpdateFunctionSpec(t, s);
      var name := t.functionName.value;
      var record := s.functions[name];
      var config := FetchedConfiguration(GetFunctionResult(record.configuration));
      var published := NextPublished(record.published, t.publish);
      && r.run.outcome == Done
      && r.created.None?
      && name in r.run.state.functions
      && r.run.state.functions[name] ==
           FunctionRecord(Some(UpdatedConfiguration(ConfigRequest(t, config).value)), CodeOf(t), published)
      && (t.tags.Some? ==> r.run.state.tags == s.tags[config.functionArn.value := t.tags.value])
      && (t.tags.None? ==> r.run.state.tags == s.tags)
      && (t.alias.Some? ==>
            r.run.state.aliases == s.aliases[AliasKey(name, t.alias.value) := ReportedVersion(published, t.publish)])
      && (t.alias.None? ==> r.run.state.aliases == s.aliases)
  {
    var name := t.functionName.value;
    var got := GetFunctionStep(s, name);
    var config := FetchedConfiguration(got.response.value);
    UpdatePathConfiguration(t, s);
    var c := UpdateFunctionConfigurationSpec(t, config, got.state);
    var code := UpdateFunctionCodeStep(c.state, CodeRequest(t));
    QuietAfter(c.state, code.state);
    if t.alias.Some? {
      var areq := AliasRequestFor(t, code.response.value.version);
      var ua := UpdateAliasStep(code.state, areq);
      QuietAfter(c.state, ua.state);
    }
  }
}
