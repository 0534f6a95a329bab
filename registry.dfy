/**
 * The process-wide endpoint registry of kitchen/core/dependencies.py: a table from
 * endpoint keys (a path, usually with a ":METHOD" suffix) to an enabled flag and a
 * description, consulted at request time. Lookups fail open: a key that was never
 * registered counts as enabled.
 */
module EndpointRegistry {
  import opened Wrappers
  import opened Text

  datatype Entry = Entry(enabled: bool, description: string)

  type Table = map<string, Entry>

  /**
   * A regular-expression engine as the registry uses it: whether `re.compile`
   * accepts a pattern, and whether `re.match(pattern, text)` succeeds (anchored at
   * the start of `text`, not required to consume all of it).
   */
  datatype RegexEngine = RegexEngine(compiles: string -> bool, matches: (string, string) -> bool)

  /** The engine restricted to patterns without metacharacters, where `re.match` is a prefix test. */
  function LiteralEngine(): (e: RegexEngine)
    ensures forall p :: e.compiles(p)
    ensures forall p, s :: e.matches(p, s) == StartsWith(s, p)
  {
    RegexEngine(p => true, (p, s) => StartsWith(s, p))
  }

  /** `is_endpoint_enabled` on a table. */
  function EnabledIn(t: Table, path: string): (r: bool)
    ensures path !in t ==> r
    ensures path in t ==> r == t[path].enabled
  {
    path !in t || t[path].enabled
  }

  /** `enable_endpoint` / `disable_endpoint` on a table: set the flag, registering the key if new. */
  function SetEnabledIn(t: Table, path: string, enabled: bool): (r: Table)
    ensures EnabledIn(r, path) == enabled
    ensures r.Keys == t.Keys + {path}
    ensures forall k :: k in t && k != path ==> r[k] == t[k]
    ensures path in t ==> r[path].description == t[path].description
    ensures path !in t ==> r[path].description == ""
  {
    if path in t then t[path := t[path].(enabled := enabled)] else t[path := Entry(enabled, "")]
  }

  /** `toggle_endpoint` on a table. */
  function ToggleIn(t: Table, path: string): (r: Table)
    ensures EnabledIn(r, path) == !EnabledIn(t, path)
    ensures r.Keys == t.Keys + {path}
    ensures forall k :: k in t && k != path ==> r[k] == t[k]
  {
    SetEnabledIn(t, path, !EnabledIn(t, path))
  }

  /** Toggling a registered key twice gives back the table it started from. */
  lemma ToggleTwiceRestores(t: Table, path: string)
    requires path in t
    ensures ToggleIn(ToggleIn(t, path), path) == t
  {
    var once := ToggleIn(t, path);
    assert once[path] == t[path].(enabled := !t[path].enabled);
    assert ToggleIn(once, path)[path] == t[path];
  }

  /** Toggling an unknown key twice leaves it registered, enabled and without a description. */
  lemma ToggleTwiceRegisters(t: Table, path: string)
    requires path !in t
    ensures ToggleIn(ToggleIn(t, path), path) == t[path := Entry(true, "")]
  {
    var once := ToggleIn(t, path);
    assert once == t[path := Entry(false, "")];
  }

  /** Setting a flag twice is the same as setting it once. */
  lemma SetEnabledIdempotent(t: Table, path: string, enabled: bool)
    ensures SetEnabledIn(SetEnabledIn(t, path, enabled), path, enabled) == SetEnabledIn(t, path, enabled)
  {
    var once := SetEnabledIn(t, path, enabled);
    assert once[path].(enabled := enabled) == once[path];
  }

  /** Disabling then enabling a registered key restores it exactly when it was enabled before. */
  lemma DisableThenEnable(t: Table, path: string)
    requires path in t && t[path].enabled
    ensures SetEnabledIn(SetEnabledIn(t, path, false), path, true) == t
  {
    var off := SetEnabledIn(t, path, false);
    assert SetEnabledIn(off, path, true)[path] == t[path];
  }

  /** The keys of the table that `bulk_update_endpoints` touches. */
  function MatchedKeys(t: Table, matches: string -> bool): set<string>
  {
    set k | k in t && matches(k)
  }

  /** `bulk_update_endpoints` on a table, for a pattern that compiled. */
  function BulkIn(t: Table, matches: string -> bool, enabled: bool): (r: Table)
    ensures r.Keys == t.Keys
    ensures forall k :: k in t ==> r[k].description == t[k].description
    ensures forall k :: k in t ==> r[k].enabled == (if matches(k) then enabled else t[k].enabled)
  {
    map k | k in t :: if matches(k) then t[k].(enabled := enabled) else t[k]
  }

  /** Applying the same bulk update twice is the same as applying it once. */
  lemma BulkIdempotent(t: Table, matches: string -> bool, enabled: bool)
    ensures BulkIn(BulkIn(t, matches, enabled), matches, enabled) == BulkIn(t, matches, enabled)
  {
  }

  /** `re.compile(pattern).match` as a predicate on keys. */
  function PatternMatcher(engine: RegexEngine, pattern: string): string -> bool
  {
    k => engine.matches(pattern, k)
  }

  /** The table after the bulk update has visited every key except those in `pending`. */
  function BulkPartial(t: Table, matches: string -> bool, enabled: bool, pending: set<string>): Table
  {
    map k | k in t :: if k !in pending && matches(k) then t[k].(enabled := enabled) else t[k]
  }

  /** Before the loop nothing is updated yet. */
  lemma BulkPartialStart(t: Table, matches: string -> bool, enabled: bool)
    ensures BulkPartial(t, matches, enabled, t.Keys) == t
  {
  }

  /** With nothing pending, the partial update is the whole bulk update. */
  lemma BulkPartialDone(t: Table, matches: string -> bool, enabled: bool)
    ensures BulkPartial(t, matches, enabled, {}) == BulkIn(t, matches, enabled)
    ensures MatchedKeys(t, matches) - {} == MatchedKeys(t, matches)
  {
  }

  lemma BulkPartialStep(t: Table, matches: string -> bool, enabled: bool, pending: set<string>, path: string)
    requires path in pending && pending <= t.Keys
    ensures matches(path) ==>
      SetEnabledIn(BulkPartial(t, matches, enabled, pending), path, enabled) == BulkPartial(t, matches, enabled, pending - {path})
    ensures matches(path) ==>
      |MatchedKeys(t, matches) - (pending - {path})| == |MatchedKeys(t, matches) - pending| + 1
    ensures !matches(path) ==>
      BulkPartial(t, matches, enabled, pending) == BulkPartial(t, matches, enabled, pending - {path})
    ensures !matches(path) ==>
      MatchedKeys(t, matches) - (pending - {path}) == MatchedKeys(t, matches) - pending
  {
    if matches(path) {
      assert MatchedKeys(t, matches) - (pending - {path}) == (MatchedKeys(t, matches) - pending) + {path};
    }
  }

  /** With literal patterns, a pattern extended by more characters touches no key the shorter one misses. */
  lemma {:induction false} LongerPrefixMatchesFewer(t: Table, short: string, long: string)
    requires StartsWith(long, short)
    ensures MatchedKeys(t, PatternMatcher(LiteralEngine(), long)) <= MatchedKeys(t, PatternMatcher(LiteralEngine(), short))
  {
    var e := LiteralEngine();
    forall k | k in MatchedKeys(t, PatternMatcher(e, long))
      ensures k in MatchedKeys(t, PatternMatcher(e, short))
    {
      assert e.matches(long, k);
      assert StartsWith(k, long);
      assert k[..|long|][..|short|] == k[..|short|];
      assert e.matches(short, k);
    }
  }

  /** One row of `get_all_endpoints`. */
  datatype EndpointInfo = EndpointInfo(enabled: bool, description: string, featureFlag: Option<string>)

  /**
   * The flag that `get_all_endpoints` reports for a path: the flag of the first prefix
   * (in declaration order) the path starts with, dropped when that flag name is empty.
   */
  function FlagForPath(prefixFlags: seq<(string, string)>, path: string): (r: Option<string>)
    ensures r.Some? ==> r.value != "" && exists i :: 0 <= i < |prefixFlags| && prefixFlags[i].1 == r.value && StartsWith(path, prefixFlags[i].0)
    ensures (forall i :: 0 <= i < |prefixFlags| ==> !StartsWith(path, prefixFlags[i].0)) ==> r == None
  {
    if |prefixFlags| == 0 then None
    else if StartsWith(path, prefixFlags[0].0) then
      (if prefixFlags[0].1 == "" then None else Some(prefixFlags[0].1))
    else
      var r := FlagForPath(prefixFlags[1..], path);
      assert r.Some? ==> exists i :: 0 <= i < |prefixFlags| && prefixFlags[i].1 == r.value && StartsWith(path, prefixFlags[i].0) by {
        if r.Some? {
          var i :| 0 <= i < |prefixFlags[1..]| && prefixFlags[1..][i].1 == r.value && StartsWith(path, prefixFlags[1..][i].0);
          assert prefixFlags[i + 1] == prefixFlags[1..][i];
        }
      }
      r
  }

  /** An earlier prefix wins over every later one. */
  lemma {:induction false} FlagForPathFirstWins(prefixFlags: seq<(string, string)>, path: string, i: nat)
    requires i < |prefixFlags| && StartsWith(path, prefixFlags[i].0) && prefixFlags[i].1 != ""
    requires forall j :: 0 <= j < i ==> !StartsWith(path, prefixFlags[j].0)
    ensures FlagForPath(prefixFlags, path) == Some(prefixFlags[i].1)
  {
    if i > 0 {
      assert !StartsWith(path, prefixFlags[0].0);
      FlagForPathFirstWins(prefixFlags[1..], path, i - 1);
    }
  }

  /** The in-memory registry shared by every router of the application. */
  class Registry {
    var entries: Table

    /** The module-level `ENDPOINT_REGISTRY = {}`. */
    constructor ()
      ensures entries == map[]
    {
      entries := map[];
    }

    /** `is_endpoint_enabled`. */
    function IsEnabled(path: string): bool
      reads this
    {
      EnabledIn(entries, path)
    }

    /** `register_endpoint`: overwrites any previous entry for the key. */
    method Register(path: string, enabled: bool, description: string)
      modifies this
      ensures entries == old(entries)[path := Entry(enabled, description)]
    {
      entries := entries[path := Entry(enabled, description)];
    }

    /** `enable_endpoint`. */
    method Enable(path: string)
      modifies this
      ensures entries == SetEnabledIn(old(entries), path, true)
    {
      if path in entries {
        entries := entries[path := entries[path].(enabled := true)];
      } else {
        Register(path, true, "");
      }
    }

    /** `disable_endpoint`. */
    method Disable(path: string)
      modifies this
      ensures entries == SetEnabledIn(old(entries), path, false)
    {
      if path in entries {
        entries := entries[path := entries[path].(enabled := false)];
      } else {
        Register(path, false, "");
      }
    }

    /** `toggle_endpoint`: returns the new state. */
    method Toggle(path: string) returns (now: bool)
      modifies this
      ensures now == !old(IsEnabled(path))
      ensures entries == ToggleIn(old(entries), path)
      ensures IsEnabled(path) == now
    {
      var current := IsEnabled(path);
      if path in entries {
        entries := entries[path := entries[path].(enabled := !current)];
      } else {
        Register(path, !current, "");
      }
      now := !current;
    }

    /** `get_include_in_schema`: the stored flag, registering an unknown key as enabled. */
    method GetIncludeInSchema(path: string) returns (shown: bool)
      modifies this
      ensures path in old(entries) ==> shown == old(entries)[path].enabled && entries == old(entries)
      ensures path !in old(entries) ==> shown && entries == old(entries)[path := Entry(true, "")]
      ensures shown == IsEnabled(path)
    {
      if path in entries {
        shown := entries[path].enabled;
      } else {
        Register(path, true, "");
        shown := true;
      }
    }

    /**
     * `bulk_update_endpoints`: compiles the pattern first (a bad pattern raises before
     * anything changes), then enables or disables every key the pattern matches and
     * reports how many keys it touched.
     */
    method BulkUpdate(pattern: string, engine: RegexEngine, enabled: bool) returns (r: Result<nat, string>)
      modifies this
      ensures !engine.compiles(pattern) ==> r.Err? && entries == old(entries)
      ensures engine.compiles(pattern) ==>
        var matches := PatternMatcher(engine, pattern);
        r == Ok(|MatchedKeys(old(entries), matches)|) && entries == BulkIn(old(entries), matches, enabled)
    {
      if !engine.compiles(pattern) {
        return Err("re.error: " + pattern);
      }
      var matches := PatternMatcher(engine, pattern);
      var count := 0;
      var pending := entries.Keys;
      ghost var before := entries;
      BulkPartialStart(before, matches, enabled);
      while pending != {}
        invariant pending <= before.Keys
        invariant entries == BulkPartial(before, matches, enabled, pending)
        invariant count == |MatchedKeys(before, matches) - pending|
        decreases |pending|
      {
        var path :| path in pending;
        BulkPartialStep(before, matches, enabled, pending, path);
        pending := pending - {path};
        if matches(path) {
          if enabled {
            Enable(path);
          } else {
            Disable(path);
          }
          count := count + 1;
        }
      }
      BulkPartialDone(before, matches, enabled);
      r := Ok(count);
    }

    /** `get_registered_endpoints`: a copy of every entry. */
    function RegisteredEndpoints(): (r: map<string, Entry>)
      reads this
      ensures r.Keys == entries.Keys
      ensures forall k :: k in r ==> r[k].enabled == IsEnabled(k)
      ensures forall k :: k in r ==> r[k].description == entries[k].description
    {
      map k | k in entries :: Entry(entries[k].enabled, entries[k].description)
    }

    /** `get_all_endpoints`: every entry, annotated with the feature flag guarding its path prefix. */
    function AllEndpoints(prefixFlags: seq<(string, string)>): (r: map<string, EndpointInfo>)
      reads this
      ensures r.Keys == entries.Keys
      ensures forall k :: k in r ==>
        r[k].enabled == entries[k].enabled && r[k].description == entries[k].description
      ensures forall k :: k in r ==> r[k].featureFlag == FlagForPath(prefixFlags, k)
      ensures forall k :: k in r && r[k].featureFlag.Some? ==>
        exists i :: 0 <= i < |prefixFlags| && StartsWith(k, prefixFlags[i].0)
    {
      map k | k in entries :: EndpointInfo(entries[k].enabled, entries[k].description, FlagForPath(prefixFlags, k))
    }
  }
}
