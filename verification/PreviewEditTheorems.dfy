/** Exactly which edits leave a stale preview in the cache. */
module PreviewEditTheorems {
  import opened Prelude
  import opened PreviewEdits

  /** A view's share, present or not. */
  function Share(v: View): Option<string> {
    if !Live(v) then Some("") else if v.ddl.None? then None else Some(Text(v.ddl.value))
  }

  lemma ConcatAssociates(a: string, b: string, c: string)
    ensures (a + b) + c == a + (b + c)
  {}

  lemma {:induction false} BuildAppends(views: seq<View>, more: seq<View>)
    ensures Build(views).None? ==> Build(views + more).None?
    ensures Build(more).None? ==> Build(views + more).None?
    ensures Build(views).Some? && Build(more).Some? ==> Build(views + more) == Some(Build(views).value + Build(more).value)
  {
    if more == [] {
      assert views + more == views;
      if Build(views).Some? { assert Build(views).value + "" == Build(views).value; }
    } else {
      var n := |more| - 1;
      BuildAppends(views, more[..n]);
      assert (views + more)[..|views| + n] == views + more[..n];
      var last := more[n];
      if Build(views).Some? && Build(more).Some? && Live(last) {
        ConcatAssociates(Build(views).value, Build(more[..n]).value, Text(last.ddl.value));
      }
    }
  }

  lemma BuildOne(v: View)
    ensures Build([v]) == Share(v)
  {
    assert [v][..0] == [];
    assert Live(v) && v.ddl.Some? ==> "" + Text(v.ddl.value) == Text(v.ddl.value);
  }

  lemma BuildThree(before: seq<View>, v: View, after: seq<View>)
    ensures Build(before + [v] + after).Some? <==> Build(before).Some? && Share(v).Some? && Build(after).Some?
    ensures Build(before + [v] + after).Some? ==>
              Build(before + [v] + after).value == Build(before).value + Share(v).value + Build(after).value
  {
    BuildOne(v);
    BuildAppends(before, [v]);
    BuildAppends(before + [v], after);
  }

  lemma SandwichCancels(a: string, x: string, y: string, b: string)
    ensures a + x + b == a + y + b <==> x == y
  {
    if a + x + b == a + y + b {
      assert |x| == |y|;
      assert x == (a + x + b)[|a|..|a| + |x|];
      assert y == (a + y + b)[|a|..|a| + |y|];
    }
  }

  /** Replacing one view changes the preview exactly when it changes that view's share. */
  lemma ShareDecides(views: seq<View>, i: nat, v: View)
    requires i < |views| && Build(views).Some?
    ensures Build(views[i := v]) == Build(views) <==> Share(v) == Share(views[i])
  {
    var before, after := views[..i], views[i + 1..];
    assert views == before + [views[i]] + after;
    assert views[i := v] == before + [v] + after;
    BuildThree(before, views[i], after);
    BuildThree(before, v, after);
    if Share(v).Some? {
      SandwichCancels(Build(before).value, Share(v).value, Share(views[i]).value, Build(after).value);
    }
  }

  /** Whether an untouched edit changes the view's share is told by `Harmful`. */
  lemma HarmIsAboutShares(v: View, r: Request, parsed: Parsed, generated: Option<string>)
    requires Edited(v, false, r, parsed, generated).Some?
    requires !Edited(v, false, r, parsed, generated).value.1
    requires Live(v) ==> v.ddl.Some?
    ensures Share(Edited(v, false, r, parsed, generated).value.0) == Share(v) <==> !Harmful(v, r, parsed)
  {
    var v' := Edited(v, false, r, parsed, generated).value.0;
    if Live(v') && v'.ddl.Some? { assert Text(v'.ddl.value) != ""; }
    if Live(v) && v.ddl.Some? { assert Text(v.ddl.value) != ""; }
  }

  lemma TouchedEditIsHarmless(v: View, r: Request, parsed: Parsed, generated: Option<string>)
    requires Edited(v, false, r, parsed, generated).None? || Edited(v, false, r, parsed, generated).value.1
    ensures !Harmful(v, r, parsed)
  {}

  lemma {:induction false} BuiltViewsHaveDdl(views: seq<View>, i: nat)
    requires i < |views| && Build(views).Some?
    ensures Live(views[i]) ==> views[i].ddl.Some?
  {
    if i < |views| - 1 { BuiltViewsHaveDdl(views[..|views| - 1], i); }
  }

  lemma UpsertIsExact(s: State, r: Request, newId: string, parsed: Parsed, generated: Option<string>)
    requires Inv(s)
    ensures Coherent(Upserted(s, r, newId, parsed, generated))
       <==> !HarmfulStep(s, Upsert(r, newId, parsed, generated))
  {
    var s' := Upserted(s, r, newId, parsed, generated);
    var i := Target(s, r);
    if Rejected(s, r) {
    } else if i < |s.views| {
      var e := Edited(s.views[i], false, r, parsed, generated);
      if e.None? || e.value.1 {
        TouchedEditIsHarmless(s.views[i], r, parsed, generated);
      } else if Current(s) {
        BuiltViewsHaveDdl(s.views, i);
        ShareDecides(s.views, i, e.value.0);
        HarmIsAboutShares(s.views[i], r, parsed, generated);
      }
    } else {
      var e := Edited(NewView(newId, r.name), true, r, parsed, generated);
      if e.Some? && !e.value.1 {
        BuildOne(e.value.0);
        BuildAppends(s.views, [e.value.0]);
        if Current(s) { assert s.cache.value.ddl + "" == s.cache.value.ddl; }
      }
    }
  }

  lemma DroppingDeadView(before: seq<View>, v: View, after: seq<View>)
    requires !Live(v)
    ensures Build(before + after) == Build(before + [v] + after)
  {
    BuildThree(before, v, after);
    BuildAppends(before, after);
    if Build(before).Some? && Build(after).Some? {
      assert Build(before).value + "" + Build(after).value == Build(before).value + Build(after).value;
    }
  }

  lemma RemovalKeeps(s: State, id: string)
    requires Inv(s)
    ensures Coherent(Removed(s, id))
  {
    var i := IndexById(s.views, id);
    if i < |s.views| && !Live(s.views[i]) {
      assert s.views == s.views[..i] + [s.views[i]] + s.views[i + 1..];
      DroppingDeadView(s.views[..i], s.views[i], s.views[i + 1..]);
    }
  }

  /** One step from a coherent state: only the harmful edits leave a stale preview, and they always do. */
  lemma StepIsExact(s: State, a: Action)
    requires Inv(s)
    ensures Coherent(Step(s, a)) <==> !HarmfulStep(s, a)
    ensures Coherent(Step(s, a)) ==> Inv(Step(s, a))
  {
    match a
    case Upsert(r, newId, parsed, generated) => UpsertIsExact(s, r, newId, parsed, generated);
    case RemoveView(id) => RemovalKeeps(s, id);
    case _ =>
  }

  /** Over every history: each preview served from the cache is the one that would be built now, if and only
      if no harmful edit ever meets a current cache. */
  lemma {:induction false} CacheIsExact(actions: seq<Action>)
    ensures AlwaysCoherent(Init, actions) <==> NeverHarmful(Init, actions)
    ensures AlwaysCoherent(Init, actions) ==> Inv(Run(Init, actions))
  {
    if actions != [] {
      var n := |actions| - 1;
      CacheIsExact(actions[..n]);
      if AlwaysCoherent(Init, actions[..n]) { StepIsExact(Run(Init, actions[..n]), actions[n]); }
    }
  }

  // ---------------------------------------------------------------- witnesses

  const Stored := View("1", "v", Some("a"), None, true, false, true, ["p"])
  const Settled := State(3, [Stored], Some(Cached(3, ";a\n")))
  const Again := Request(Some("1"), "v", Some("a"), None, true, false, ["p"], false)
  const Fine := Parsed(true, false, false, None)

  function Edit(s: State, r: Request, parsed: Parsed): State { Upserted(s, r, "2", parsed, Some("g")) }

  lemma SettledIsCoherent()
    ensures Inv(Settled) && Current(Settled)
  {
    BuildOne(Stored);
    assert Text("a") == ";a\n";
  }

  /** A legal request for each way of leaving a stale preview: taking a view out, a changed DDL trusted to the
      user interface, a user view without DDL, and a parse error on a view that stays parsable. */
  lemma StalePreviews()
    ensures !Coherent(Edit(Settled, Again.(complete := false), Fine))
    ensures !Coherent(Edit(Settled, Again.(ddl := Some("b")), Fine))
    ensures !Coherent(Edit(Settled, Again.(userDefined := true, ddl := None), Fine))
    ensures !Coherent(Edit(Settled, Again.(userDefined := true, ddl := Some("b")), Fine.(failed := true)))
  {
    SettledIsCoherent();
    assert Text("a")[1] != Text("b")[1];
    UpsertIsExact(Settled, Again.(complete := false), "2", Fine, Some("g"));
    UpsertIsExact(Settled, Again.(ddl := Some("b")), "2", Fine, Some("g"));
    UpsertIsExact(Settled, Again.(userDefined := true, ddl := None), "2", Fine, Some("g"));
    UpsertIsExact(Settled, Again.(userDefined := true, ddl := Some("b")), "2", Fine.(failed := true), Some("g"));
  }

  /** And the fifth: a view that is parsable but incomplete is completed without changing its DDL. */
  lemma StaleCompletion()
    ensures var s := State(3, [Stored.(complete := false)], Some(Cached(3, "")));
            Inv(s) && !Coherent(Edit(s, Again.(userDefined := true), Fine))
  {
    var s := State(3, [Stored.(complete := false)], Some(Cached(3, "")));
    BuildOne(s.views[0]);
    UpsertIsExact(s, Again.(userDefined := true), "2", Fine, Some("g"));
  }

  /** A view taken out of the preview, then replaced by an edit that does touch: the cache recovers. */
  lemma TouchRecovers(s: State, a: Action)
    requires (s.cache.Some? ==> s.cache.value.version <= s.version) && Step(s, a).version > s.version
    ensures Inv(Step(s, a))
  {}
}
