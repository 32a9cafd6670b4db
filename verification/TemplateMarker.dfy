/** InvalidateTemplateIfStale of core/template_migration.go over any sequence of launches: the marker is
    the running maximum of the release versions launched. */
module TemplateMarker {
  import opened Basics
  import opened Versions

  predicate IsPrefix(p: string, s: string) { p <= s }

  predicate Contains(s: string, p: string) {
    p <= s || (s != "" && Contains(s[1..], p))
  }

  predicate IsSuffix(p: string, s: string) {
    |p| <= |s| && s[|s| - |p|..] == p
  }

  predicate IsDev(v: string) {
    v == "" || IsPrefix("v-local-test", v) || Contains(v, "unnamed-dev") || IsSuffix("-dirty", v)
  }

  /** p occurs in s. */
  lemma {:induction false} ContainsIff(s: string, p: string)
    ensures Contains(s, p) <==> exists i: nat :: Occurs(s, p, i)
  {
    if p <= s {
      assert Occurs(s, p, 0);
    } else if s != "" {
      ContainsIff(s[1..], p);
      if k: nat :| Occurs(s[1..], p, k) { assert Occurs(s, p, k + 1); }
      if i: nat :| Occurs(s, p, i) { OccursLater(s, p, i); }
    }
  }

  lemma OccursLater(s: string, p: string, i: nat)
    requires s != "" && !(p <= s) && Occurs(s, p, i)
    ensures i > 0 && Occurs(s[1..], p, i - 1)
  {}

  ghost predicate Occurs(s: string, p: string, i: nat) {
    i + |p| <= |s| && s[i..i + |p|] == p
  }

  /** Printed release numbers are no dev builds, with or without a leading v; with a suffix, exactly when it
      marks one. */
  lemma ReleasesAreReleases(ns: seq<nat>, v: bool)
    requires ns != []
    ensures !IsDev(Printed(ns, v, None))
  {
    var s := Printed(ns, v, None);
    DottedChars(ns);
    var d := Dotted(ns);
    assert s == (if v then "v" else "") + d;
    assert forall c <- s :: c == 'v' || c == '.' || IsDigit(c);
    NotLocal(s);
    ContainsIff(s, "unnamed-dev");
    forall i: nat ensures !Occurs(s, "unnamed-dev", i) { NotUnnamed(s, i); }
    NotDirty(s);
  }

  predicate Numeric(s: string) { s != "" && forall c <- s :: c == 'v' || c == '.' || IsDigit(c) }

  lemma OccursHas(s: string, p: string, i: nat, k: nat)
    requires Occurs(s, p, i) && k < |p|
    ensures p[k] in s
  {
    assert s[i + k] == s[i..i + |p|][k];
  }

  lemma NotLocal(s: string)
    requires Numeric(s)
    ensures !("v-local-test" <= s)
  {
    if "v-local-test" <= s { OccursHas(s, "v-local-test", 0, 1); }
  }

  lemma NotUnnamed(s: string, i: nat)
    requires Numeric(s)
    ensures !Occurs(s, "unnamed-dev", i)
  {
    if Occurs(s, "unnamed-dev", i) { OccursHas(s, "unnamed-dev", i, 0); }
  }

  lemma NotDirty(s: string)
    requires Numeric(s)
    ensures !IsSuffix("-dirty", s)
  {
    if IsSuffix("-dirty", s) { OccursHas(s, "-dirty", |s| - 6, 0); }
  }

  lemma {:induction false} DottedChars(ns: seq<nat>)
    requires ns != []
    ensures Dotted(ns) != "" && forall c <- Dotted(ns) :: c == '.' || IsDigit(c)
  {
    DecimalIs(ns[0]);
    if |ns| > 1 { DottedChars(ns[1..]); }
  }

  /** The three marks of a dev build, and the empty version. */
  lemma DevIff(s: string)
    ensures IsDev(s) <==> || s == "" || Occurs(s, "v-local-test", 0) || (exists i: nat :: Occurs(s, "unnamed-dev", i))
                          || (|s| >= 6 && Occurs(s, "-dirty", |s| - 6))
  {
    ContainsIff(s, "unnamed-dev");
  }

  /** What os.Stat, os.Remove and MarkTemplateInstalled answer at one launch. */
  datatype Stat = Present | Absent | Unreadable
  datatype Launch = Launch(version: string, stat: Stat, removable: bool, stampable: bool)

  predicate Checks(marker: string, l: Launch) {
    !IsDev(l.version) && !(marker != "" && CompareVersions(marker, l.version) >= 0)
  }

  predicate Deletes(marker: string, l: Launch) {
    Checks(marker, l) && l.stat == Present && l.removable
  }

  function Stamped(marker: string, l: Launch): string {
    if !Checks(marker, l) || l.stat == Unreadable || (l.stat == Present && !l.removable) || !l.stampable
    then marker else l.version
  }

  function MarkerAfter(initial: string, ls: seq<Launch>): string {
    if ls == [] then initial else Stamped(MarkerAfter(initial, ls[..|ls| - 1]), ls[|ls| - 1])
  }

  predicate Release(l: Launch) { !IsDev(l.version) }

  /** A release launch at which nothing fails. */
  predicate Completes(l: Launch) {
    Release(l) && l.stat != Unreadable && (l.stat == Present ==> l.removable) && l.stampable
  }

  /** At least every version that completed, and the initial marker. */
  ghost predicate AtLeastAll(v: string, initial: string, ls: seq<Launch>) {
    && (forall i | 0 <= i < |ls| && Completes(ls[i]) :: CompareVersions(v, ls[i].version) >= 0)
    && (initial != "" ==> CompareVersions(v, initial) >= 0)
  }

  ghost predicate AboveAll(v: string, initial: string, ls: seq<Launch>) {
    && (forall i | 0 <= i < |ls| && Completes(ls[i]) :: CompareVersions(v, ls[i].version) > 0)
    && (initial != "" ==> CompareVersions(v, initial) > 0)
  }

  lemma AboveMaximum(m: string, v: string, initial: string, ls: seq<Launch>)
    requires AtLeastAll(m, initial, ls) && CompareVersions(m, v) < 0
    ensures AboveAll(v, initial, ls) && AtLeastAll(v, initial, ls)
  {
    forall x | CompareVersions(m, x) >= 0 ensures CompareVersions(v, x) > 0 {
      TotalPreorder(x, m, v);
      TotalPreorder(x, m, x);
      TotalPreorder(x, v, x);
    }
  }

  ghost predicate IsMaximum(m: string, initial: string, ls: seq<Launch>) {
    && (m == initial || exists i | 0 <= i < |ls| :: Completes(ls[i]) && m == ls[i].version)
    && (m == "" ==> initial == "" && forall i | 0 <= i < |ls| :: !Completes(ls[i]))
    && (m != "" ==> AtLeastAll(m, initial, ls))
  }

  lemma MaximumStep(m: string, initial: string, ls: seq<Launch>, l: Launch)
    requires IsMaximum(m, initial, ls)
    ensures IsMaximum(Stamped(m, l), initial, ls + [l])
  {
    var ls' := ls + [l];
    assert forall i | 0 <= i < |ls| :: ls'[i] == ls[i];
    assert ls'[|ls|] == l;
    if Checks(m, l) && Completes(l) {
      TotalPreorder(l.version, l.version, l.version);
      if m != "" {
        AboveMaximum(m, l.version, initial, ls);
      }
    } else {
      assert Completes(l) ==> m != "" && CompareVersions(m, l.version) >= 0;
    }
  }

  /** Whatever fails at whichever launches: the marker is the version of a completed release launch (or
      the initial one), and no completed one is above it. */
  lemma {:induction false} MarkerIsRunningMaximum(initial: string, ls: seq<Launch>)
    ensures IsMaximum(MarkerAfter(initial, ls), initial, ls)
    decreases |ls|
  {
    if ls == [] {
      TotalPreorder(initial, initial, initial);
    } else {
      var front, l := ls[..|ls| - 1], ls[|ls| - 1];
      MarkerIsRunningMaximum(initial, front);
      MaximumStep(MarkerAfter(initial, front), initial, front, l);
      assert front + [l] == ls;
    }
  }

  /** The template file is deleted at a launch exactly when it is there and can be removed, and the
      version launched is a release strictly above every earlier one that completed. */
  lemma DeletedIffNewest(initial: string, ls: seq<Launch>, l: Launch)
    ensures Deletes(MarkerAfter(initial, ls), l)
            <==> l.stat == Present && l.removable && Release(l) && AboveAll(l.version, initial, ls)
  {
    MarkerIsRunningMaximum(initial, ls);
    var m := MarkerAfter(initial, ls);
    if m != "" {
      TotalPreorder(m, l.version, m);
      if CompareVersions(m, l.version) < 0 {
        AboveMaximum(m, l.version, initial, ls);
      }
    }
  }

  /** Launches at which something failed leave no trace: after any number of them a launch deletes the
      template exactly when it would have done so before. */
  lemma {:induction false} FailedRemovalRetries(initial: string, ls: seq<Launch>, failed: seq<Launch>, l: Launch)
    requires forall i | 0 <= i < |failed| :: !Completes(failed[i])
    ensures MarkerAfter(initial, ls + failed) == MarkerAfter(initial, ls)
    ensures Deletes(MarkerAfter(initial, ls + failed), l) <==> Deletes(MarkerAfter(initial, ls), l)
    decreases |failed|
  {
    if failed == [] {
      assert ls + failed == ls;
    } else {
      var front := failed[..|failed| - 1];
      FailedRemovalRetries(initial, ls, front, l);
      assert (ls + failed)[..|ls + failed| - 1] == ls + front;
    }
  }

  class Launcher {
    var marker: string            // LastTemplateLauncherVersion
    var template: bool            // bin/wizard_template.json exists

    constructor (marker: string, template: bool)
      ensures this.marker == marker && this.template == template
    {
      this.marker, this.template := marker, template;
    }

    method InvalidateTemplateIfStale(version: string, readable: bool, removable: bool, stampable: bool)
      returns (ok: bool)
      modifies this
      ensures var l := Launch(version, if !readable then Unreadable else if old(template) then Present else Absent,
                              removable, stampable);
              && marker == Stamped(old(marker), l)
              && template == (old(template) && !Deletes(old(marker), l))
              && (ok <==> !Checks(old(marker), l) || l.stat == Absent || (l.stat == Present && removable))
    {
      if IsDev(version) { return true; }
      if marker != "" {
        var c := Compare(marker, version);
        if c >= 0 { return true; }
      }
      if !readable { return false; }
      if template {
        if !removable { return false; }
        template := false;
      }
      if stampable {
        marker := version;
      }
      ok := true;
    }
  }
}
