/** What the evidence gate refuses and accepts, said outright: its own files are always watched, a policy
    has to be sound, a path names no way out of the repository, and a record is accepted exactly when
    what it declares fits. */
module DeliveryLaws {
  import opened JsonValues
  import opened Options
  import opened Sequences
  import opened DeliveryGate

  // ------------------------------------------------------------------------- paths

  /** `part` stands between two separators of `s`, or between one and an end. */
  ghost predicate Segment(s: string, c: char, part: string) {
    && c !in part
    && exists a, b :: Around(s, c, part, a, b)
  }

  predicate Around(s: string, c: char, part: string, a: string, b: string) {
    && s == a + part + b
    && (a == "" || a[|a| - 1] == c) && (b == "" || b[0] == c)
  }

  /** The parts of a split are exactly the segments. */
  lemma {:induction false} SplitExactly(s: string, c: char, part: string)
    ensures part in Split(s, c) <==> Segment(s, c, part)
    decreases |s|
  {
    var k := Find(s, c);
    if k == |s| {
      if Segment(s, c, part) {
        var a, b :| Around(s, c, part, a, b);
        SeparatorInside(s, c, part, a, b);
      }
      if part == s { assert Around(s, c, part, "", ""); }
    } else {
      var rest := s[k + 1..];
      SplitExactly(rest, c, part);
      SegmentOfRest(s, c, part, k);
    }
  }

  lemma SeparatorInside(s: string, c: char, part: string, a: string, b: string)
    requires Around(s, c, part, a, b)
    ensures part == s || c in s
  {
    if a != "" {
      assert s[|a| - 1] == c;
    } else if b != "" {
      assert s[|part|] == c;
    }
  }

  lemma SegmentOfRest(s: string, c: char, part: string, k: nat)
    requires k < |s| && s[k] == c && c !in s[..k]
    ensures Segment(s, c, part) <==> part == s[..k] || Segment(s[k + 1..], c, part)
  {
    if part == s[..k] { assert Around(s, c, part, "", s[k..]); }
    if Segment(s[k + 1..], c, part) { LaterIsSegment(s, c, part, k); }
    if Segment(s, c, part) {
      var a, b :| Around(s, c, part, a, b);
      FirstOrLater(s, c, part, k, a, b);
    }
  }

  lemma LaterIsSegment(s: string, c: char, part: string, k: nat)
    requires k < |s| && s[k] == c && Segment(s[k + 1..], c, part)
    ensures Segment(s, c, part)
  {
    var a, b :| Around(s[k + 1..], c, part, a, b);
    assert s == s[..k + 1] + s[k + 1..] == s[..k + 1] + (a + part + b) == (s[..k + 1] + a) + part + b;
    assert Around(s, c, part, s[..k + 1] + a, b);
  }

  /** A text without the separator ends where the first one is, if a separator or the end follows it. */
  lemma FirstEnds(s: string, c: char, part: string, k: nat, b: string)
    requires k < |s| && s[k] == c && s == part + b && (b == "" || b[0] == c)
    ensures part == s[..k] || c in part || c in s[..k]
  {
    if k < |part| {
      assert part[k] == s[k];
    } else if |part| < k {
      assert s[..k][|part|] == b[0];
    }
  }

  lemma FirstOrLater(s: string, c: char, part: string, k: nat, a: string, b: string)
    requires k < |s| && s[k] == c && c !in s[..k]
    requires c !in part && Around(s, c, part, a, b)
    ensures part == s[..k] || Segment(s[k + 1..], c, part)
  {
    if a == "" {
      assert s == part + b;
      FirstEnds(s, c, part, k, b);
    } else {
      assert s[|a| - 1] == c;
      assert forall i :: 0 <= i < k ==> s[i] == s[..k][i] != c;
      assert s[k + 1..] == a[k + 1..] + part + b;
      assert Around(s[k + 1..], c, part, a[k + 1..], b);
    }
  }

  /** A path is safe exactly when it is short, without backslashes, and each of its segments is a plain
      name: not empty, not the directory itself or the one above, not a file of secrets. */
  lemma SafePathExactly(name: string)
    ensures SafePath(name) <==>
              && |name| <= 500 && '\\' !in name
              && forall part :: Segment(name, '/', part) ==>
                   part != "" && part != "." && part != ".." && !(|part| >= 4 && part[..4] == ".env")
  {
    forall part ensures part in Split(name, '/') <==> Segment(name, '/', part) { SplitExactly(name, '/', part); }
    if |name| > 0 && name[0] == '/' { assert Around(name, '/', "", "", name); }
    if name == "" { assert Around(name, '/', "", "", ""); }
    if SafePath(name) {
      forall part | Segment(name, '/', part)
        ensures part != "" && part != "." && part != ".." && !(|part| >= 4 && part[..4] == ".env")
      {
        assert part in Split(name, '/');
      }
    }
  }

  predicate Forbidden(part: string) {
    part == ".." || part == "." || (|part| >= 4 && part[..4] == ".env" && '/' !in part)
  }

  lemma ForbiddenSegment(part: string, a: string, b: string)
    requires Forbidden(part) && Around(a + part + b, '/', part, a, b)
    ensures !SafePath(a + part + b)
  {
    SafePathExactly(a + part + b);
    assert '/' !in part;
    assert Segment(a + part + b, '/', part);
  }

  /** No safe path leads upwards or to a file of secrets, wherever it does so. */
  lemma NoWayOut(a: string, part: string, b: string)
    requires Forbidden(part)
    ensures !SafePath(part) && !SafePath(a + "/" + part + "/" + b) && !SafePath(part + "/" + b)
    ensures !SafePath(a + "/" + part) && !SafePath("/" + a)
  {
    ForbiddenSegment(part, "", "");
    assert "" + part + "" == part;
    ForbiddenSegment(part, a + "/", "/" + b);
    assert (a + "/") + part + ("/" + b) == a + "/" + part + "/" + b;
    ForbiddenSegment(part, "", "/" + b);
    assert "" + part + ("/" + b) == part + "/" + b;
    ForbiddenSegment(part, a + "/", "");
    assert (a + "/") + part + "" == a + "/" + part;
  }

  // ------------------------------------------------------------------------ records

  /** The records of a change are exactly its files `docs/platform/changes/….json`. */
  lemma RecordsExactly(changed: set<string>, name: string)
    ensures name in Records(changed) <==>
              name in changed && exists t :: name == "docs/platform/changes/" + t + ".json"
  {
    BetweenExactly(name, "docs/platform/changes/", ".json");
  }

  lemma BetweenExactly(name: string, prefix: string, suffix: string)
    requires suffix != "" && suffix[0] !in prefix
    ensures StartsWith(name, prefix) && EndsWith(name, suffix) <==> exists t :: name == prefix + t + suffix
  {
    if StartsWith(name, prefix) && EndsWith(name, suffix) {
      var k := |name| - |suffix|;
      assert name[k] == suffix[0];
      assert forall i :: 0 <= i < |prefix| ==> name[i] == prefix[i] != suffix[0];
      assert name == prefix + name[|prefix|..k] + suffix;
    }
  }

  // ----------------------------------------------------------------------- policies

  /** The files that make up the gate. */
  predicate GateFile(name: string) {
    || name == "scripts/check_platform_delivery.py" || name == "scripts/test_platform_delivery_policy.py"
    || name == "docs/platform/delivery-policy.json" || name == "tests/test_platform_delivery_gate.py"
    || name == ".github/workflows/platform-delivery.yml" || name == ".github/workflows/ci.yml"
    || name == ".github/pull_request_template.md" || name == "AGENTS.md" || name == "docs/service-delivery.md"
    || name == "docs/platform-service-delivery.md" || name == "docs/development/platform-feature-delivery.md"
  }

  /** One to a hundred relative patterns that do not go upwards. */
  ghost predicate SoundPatterns(patterns: seq<string>) {
    && 1 <= |patterns| <= 100
    && forall p :: p in patterns ==> p != "" && p[0] != '/' && !Segment(p, '/', "..")
  }

  predicate Named(c: char) { 'a' <= c <= 'z' || '0' <= c <= '9' || c == '_' || c == '-' }

  ghost predicate Sound(p: Policy) {
    && 2 <= |p.product| <= 61 && 'a' <= p.product[0] <= 'z' && (forall c :: c in p.product ==> Named(c))
    && SoundPatterns(p.watched)
    && forall role: Role :: role in p.categories && SoundPatterns(p.categories[role])
  }

  lemma PatternsExactly(patterns: seq<string>)
    ensures PatternsOk(patterns) <==> SoundPatterns(patterns)
  {
    forall p ensures ".." in Split(p, '/') <==> Segment(p, '/', "..") { SplitExactly(p, '/', ".."); }
    if SoundPatterns(patterns) {
      forall k | 0 <= k < |patterns| ensures SafePattern(patterns[k]) { assert patterns[k] in patterns; }
    }
  }

  lemma WellFormedExactly(p: Policy)
    ensures WellFormed(p) <==> Sound(p)
  {
    PatternsExactly(p.watched);
    forall role: Role | role in p.categories
      ensures PatternsOk(p.categories[role]) <==> SoundPatterns(p.categories[role])
    {
      PatternsExactly(p.categories[role]);
    }
    if Slug(p.product, {'_', '-'}, 60) {
      forall c | c in p.product ensures Named(c) {
        var k :| 0 <= k < |p.product| && p.product[k] == c;
      }
    }
    if 2 <= |p.product| <= 61 && 'a' <= p.product[0] <= 'z' && forall c :: c in p.product ==> Named(c) {
      forall k | 1 <= k < |p.product|
        ensures 'a' <= p.product[k] <= 'z' || '0' <= p.product[k] <= '9' || p.product[k] in {'_', '-'}
      {
        assert p.product[k] in p.product;
      }
    }
  }

  /** No policy that is not sound ever lets anything through, on either side. */
  lemma UnsoundPolicyIsRefused(w: World, base: Json, config: Json, changed: set<string>)
    ensures GateVerdict(w, base, config, changed).Some? ==>
              Decoded(base).Some? && Sound(Decoded(base).value) && Decoded(config).Some? && Sound(Decoded(config).value)
  {
    if GateVerdict(w, base, config, changed).Some? {
      WellFormedExactly(Decoded(base).value);
      WellFormedExactly(Decoded(config).value);
    }
  }

  /** Both policies are there, sound and for one product. */
  ghost predicate Agreeing(base: Json, config: Json) {
    && Decoded(base).Some? && Sound(Decoded(base).value) && Decoded(config).Some? && Sound(Decoded(config).value)
    && Decoded(base).value.product == Decoded(config).value.product
  }

  /** The change touches no file of the gate and nothing the patterns match. */
  predicate Unwatched(w: World, watched: seq<string>, changed: set<string>) {
    forall name :: name in changed ==> !GateFile(name) && !MatchesAny(w, watched, name)
  }

  predicate MatchesAny(w: World, watched: seq<string>, name: string) {
    exists pattern :: pattern in watched && w.matches(name, pattern)
  }

  lemma WatchedExactly(w: World, p: Policy, name: string)
    ensures Watches(w, p, name) <==> GateFile(name) || MatchesAny(w, p.watched, name)
  {
    assert name in GATE_PATHS <==> GateFile(name);
  }

  lemma VerdictWithoutARecord(w: World, config: Json, changed: set<string>)
    requires Records(changed) == {}
    ensures Verdict(w, config, changed) == Some(0) <==>
              && Decoded(config).Some? && Sound(Decoded(config).value)
              && Unwatched(w, Decoded(config).value.watched, changed)
    ensures Verdict(w, config, changed) == None || Verdict(w, config, changed) == Some(0)
  {
    if Decoded(config).Some? {
      var p := Decoded(config).value;
      WellFormedExactly(p);
      forall name ensures Watches(w, p, name) <==> GateFile(name) || MatchesAny(w, p.watched, name) {
        WatchedExactly(w, p, name);
      }
    }
  }

  /** A change without a record is accepted exactly when it touches no file of the gate and nothing that
      either policy watches: whatever the policies list, the gate watches itself. */
  lemma WithoutARecordExactly(w: World, base: Json, config: Json, changed: set<string>)
    requires Records(changed) == {}
    ensures GateVerdict(w, base, config, changed) == Some(0) <==>
              && Agreeing(base, config)
              && Unwatched(w, Decoded(base).value.watched, changed)
              && Unwatched(w, Decoded(config).value.watched, changed)
    ensures GateVerdict(w, base, config, changed) == None || GateVerdict(w, base, config, changed) == Some(0)
  {
    VerdictWithoutARecord(w, base, changed);
    VerdictWithoutARecord(w, config, changed);
  }

  /** Changing the gate takes a record. */
  lemma GateFilesNeedARecord(w: World, base: Json, config: Json, changed: set<string>, name: string)
    requires GateFile(name) && name in changed
    ensures GateVerdict(w, base, config, changed).Some? ==>
              exists t :: "docs/platform/changes/" + t + ".json" in changed
  {
    if GateVerdict(w, base, config, changed).Some? {
      if Records(changed) == {} { WithoutARecordExactly(w, base, config, changed); assert false; }
      var record :| record in Records(changed);
      RecordsExactly(changed, record);
    }
  }
}
