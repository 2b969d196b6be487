/** Overlay matching of Commander-shaped settings (keeper_sdk/core/diff.py).

    Commander adds keys of its own to nested settings, so a desired dict is compared
    with the live one as an overlay: only what the manifest owns must agree.  The
    module proves that this verdict is the fixpoint test of a deep merge. */
module Overlay {
  import opened Json

  /** `_dict_overlay_matches` */
  predicate Matches(live: Dict, desired: Dict)
    decreases JObj(desired)
  {
    forall k | k in desired && desired[k] != JNull ::
      if desired[k].JObj? then
        Get(live, k).JObj? && Matches(Get(live, k).fields, desired[k].fields)
      else
        Get(live, k) == desired[k]
  }

  /** The reference semantics: drop what the manifest leaves unset ... */
  function Owned(desired: Dict): Dict
    decreases JObj(desired)
  {
    map k | k in desired && desired[k] != JNull ::
      if desired[k].JObj? then JObj(Owned(desired[k].fields)) else desired[k]
  }

  /** ... and write the rest over the live dict, descending where both sides are dicts. */
  function DeepMerge(live: Dict, patch: Dict): Dict
    decreases JObj(patch)
  {
    map k | k in live.Keys + patch.Keys ::
      if k !in patch then live[k]
      else if patch[k].JObj? && Get(live, k).JObj?
        then JObj(DeepMerge(live[k].fields, patch[k].fields))
      else patch[k]
  }

  /** A desired dict matches exactly when merging its owned part changes nothing. */
  lemma {:induction false} MatchesIffMergeIsIdentity(live: Dict, desired: Dict)
    ensures Matches(live, desired) <==> DeepMerge(live, Owned(desired)) == live
    decreases JObj(desired)
  {
    var patch := Owned(desired);
    var merged := DeepMerge(live, patch);
    forall k | k in desired && desired[k].JObj? && Get(live, k).JObj?
      ensures Matches(live[k].fields, desired[k].fields) <==> merged[k] == live[k]
    {
      MatchesIffMergeIsIdentity(live[k].fields, desired[k].fields);
    }
    if Matches(live, desired) {
      assert merged.Keys == live.Keys;
    }
    if merged == live {
      forall k | k in desired && desired[k] != JNull
        ensures if desired[k].JObj? then
                  Get(live, k).JObj? && Matches(Get(live, k).fields, desired[k].fields)
                else Get(live, k) == desired[k]
      {
        assert k in patch && k in merged;
      }
    }
  }

  lemma {:induction false} MatchesReflexive(d: Dict)
    ensures Matches(d, d)
    decreases JObj(d)
  {
    forall k | k in d && d[k].JObj? {
      MatchesReflexive(d[k].fields);
    }
  }

  lemma {:induction false} MatchesTransitive(a: Dict, b: Dict, c: Dict)
    requires Matches(a, b) && Matches(b, c)
    ensures Matches(a, c)
    decreases JObj(c)
  {
    forall k | k in c && c[k].JObj? {
      MatchesTransitive(a[k].fields, b[k].fields, c[k].fields);
    }
  }

  /** Merging is enough: what a deep merge writes is what the next comparison accepts. */
  lemma {:induction false} MergedMatches(live: Dict, desired: Dict)
    ensures Matches(DeepMerge(live, Owned(desired)), desired)
    decreases JObj(desired)
  {
    var merged := DeepMerge(live, Owned(desired));
    forall k | k in desired && desired[k].JObj?
      ensures Get(merged, k).JObj? && Matches(Get(merged, k).fields, desired[k].fields)
    {
      assert k in Owned(desired);
      if Get(live, k).JObj? {
        MergedMatches(live[k].fields, desired[k].fields);
      } else {
        OwnedMatches(desired[k].fields);
      }
    }
    forall k | k in desired && desired[k] != JNull && !desired[k].JObj?
      ensures Get(merged, k) == desired[k]
    {
      assert k in Owned(desired);
    }
  }

  lemma {:induction false} OwnedMatches(desired: Dict)
    ensures Matches(Owned(desired), desired)
    decreases JObj(desired)
  {
    forall k | k in desired && desired[k].JObj? {
      OwnedMatches(desired[k].fields);
    }
  }

  // ---------------------------------------------------------------- pam_settings

  const UNOWNED_DEFAULTS: set<string> := {"connections", "rotation"}

  /** `_strip_unowned_pam_settings_options` */
  function StripUnowned(live: Dict, desired: Dict): Dict {
    var desiredOptions := DictOrEmpty(Get(desired, "options"));
    var owned := set k | k in desiredOptions && desiredOptions[k] != JNull;
    if !Get(live, "options").JObj? then live
    else
      var liveOptions := live["options"].fields;
      var unowned := UNOWNED_DEFAULTS - owned;
      if unowned !! liveOptions.Keys then live
      else
        var stripped := liveOptions - unowned;
        if stripped != map[] then live["options" := JObj(stripped)] else live - {"options"}
  }

  predicate SectionMatches(live: Dict, desired: Dict, section: string) {
    Get(desired, section).JObj? ==>
      Matches(DictOrEmpty(Get(live, section)), desired[section].fields)
  }

  predicate SectionsMatch(live: Dict, desired: Dict) {
    && SectionMatches(live, desired, "options")
    && SectionMatches(live, desired, "connection")
    && SectionMatches(live, desired, "port_forward")
    && (Get(desired, "allow_supply_host") != JNull ==>
          Get(live, "allow_supply_host") == Get(desired, "allow_supply_host"))
  }

  /** `_pam_resource_settings_equivalent` */
  predicate ResourceSettingsEquivalent(live: Json, desired: Json) {
    if !desired.JObj? then live == desired
    else SectionsMatch(StripUnowned(DictOrEmpty(live), desired.fields), desired.fields)
  }

  /** `_pam_remote_browser_settings_equivalent`: one level deep, plain equality below. */
  predicate BrowserSettingsEquivalent(live: Json, desired: Json) {
    if !desired.JObj? then live == desired
    else
      forall section | section in {"options", "connection"} && Get(desired.fields, section).JObj? ::
        var want := desired.fields[section].fields;
        var got := DictOrEmpty(Get(DictOrEmpty(live), section));
        forall k | k in want && want[k] != JNull :: Get(got, k) == want[k]
  }

  /** Dropping the options Commander injected never alters the verdict: the stripped
      keys are exactly ones the overlay skips. */
  lemma StrippingKeepsTheVerdict(live: Dict, desired: Dict)
    ensures SectionsMatch(StripUnowned(live, desired), desired) <==> SectionsMatch(live, desired)
  {
    var s := StripUnowned(live, desired);
    forall k | k != "options" ensures Get(s, k) == Get(live, k) {}
    if Get(desired, "options").JObj? && Get(live, "options").JObj? {
      var want := desired["options"].fields;
      var got := live["options"].fields;
      var kept := DictOrEmpty(Get(s, "options"));
      forall k | k in want && want[k] != JNull ensures Get(kept, k) == Get(got, k) {
        var owned := set x | x in want && want[x] != JNull;
        assert k in owned;
      }
      AgreeOnOwned(got, kept, want);
    }
  }

  /** What is dropped: the two options Commander adds, where the manifest does not own them,
      and the options altogether when nothing else is left of them. */
  lemma StrippedIs(live: Dict, desired: Dict)
    ensures var s, before := StripUnowned(live, desired), DictOrEmpty(Get(live, "options"));
            var after := DictOrEmpty(Get(s, "options"));
            && (forall k | k != "options" :: k in s <==> k in live) && (forall k | k != "options" && k in s :: s[k] == live[k])
            && (forall k :: k in after <==> k in before && !Injected(desired, k)) && (forall k | k in after :: after[k] == before[k])
            && (after != before ==> ("options" in s <==> after != map[])) && (after == before ==> s == live)
  {
    if Get(live, "options").JObj? {
      var owned := set k | k in DictOrEmpty(Get(desired, "options")) && DictOrEmpty(Get(desired, "options"))[k] != JNull;
      forall k ensures Injected(desired, k) <==> k in UNOWNED_DEFAULTS - owned {}
      var before := live["options"].fields;
      var stripped := before - (UNOWNED_DEFAULTS - owned);
      assert stripped == before <==> UNOWNED_DEFAULTS - owned !! before.Keys by {
        if stripped == before { assert stripped.Keys == before.Keys - (UNOWNED_DEFAULTS - owned); }
      }
    }
  }

  predicate Injected(desired: Dict, option: string) {
    option in {"connections", "rotation"} && Get(DictOrEmpty(Get(desired, "options")), option) == JNull
  }

  lemma AgreeOnOwned(a: Dict, b: Dict, desired: Dict)
    requires forall k | k in desired && desired[k] != JNull :: Get(a, k) == Get(b, k)
    ensures Matches(a, desired) <==> Matches(b, desired)
  {}

  /** Writing what the manifest owns of a section over the live section changes nothing. */
  predicate MergeIsIdle(live: Dict, desired: Dict, section: string) {
    Get(desired, section).JObj? ==>
      var got := DictOrEmpty(Get(live, section));
      DeepMerge(got, Owned(desired[section].fields)) == got
  }

  /** The verdict on `pam_settings`, options of Commander's own included, is that merging
      the owned part into the live settings as they are, section by section, would be
      idle, and that the one flag the manifest may own agrees. */
  lemma SettingsVerdictIsMerge(live: Dict, desired: Dict)
    ensures ResourceSettingsEquivalent(JObj(live), JObj(desired))
       <==> && MergeIsIdle(live, desired, "options")
            && MergeIsIdle(live, desired, "connection")
            && MergeIsIdle(live, desired, "port_forward")
            && (Get(desired, "allow_supply_host") != JNull ==>
                  Get(live, "allow_supply_host") == Get(desired, "allow_supply_host"))
  {
    StrippingKeepsTheVerdict(live, desired);
    forall section ensures SectionMatches(live, desired, section) <==> MergeIsIdle(live, desired, section) {
      if Get(desired, section).JObj? {
        MatchesIffMergeIsIdentity(DictOrEmpty(Get(live, section)), desired[section].fields);
      }
    }
  }

  lemma ResourceSettingsReflexive(v: Json)
    ensures ResourceSettingsEquivalent(v, v)
  {
    if v.JObj? {
      StrippingKeepsTheVerdict(v.fields, v.fields);
      forall section | Get(v.fields, section).JObj?
        ensures SectionMatches(v.fields, v.fields, section)
      {
        MatchesReflexive(v.fields[section].fields);
      }
      assert SectionMatches(v.fields, v.fields, "options");
      assert SectionMatches(v.fields, v.fields, "connection");
      assert SectionMatches(v.fields, v.fields, "port_forward");
    }
  }
}
