/**
 * components/concept-sidebar.tsx: the list of expanded subjects and its toggle.
 */
module ConceptSidebar {

  /** The subjects expanded when the sidebar first renders. */
  const InitialExpandedSubjects: seq<string> := ["Algebra"]

  /** No name occurs twice. */
  predicate Distinct(names: seq<string>) {
    forall i, j :: 0 <= i < j < |names| ==> names[i] != names[j]
  }

  /** a can be obtained from b by deleting entries. */
  predicate IsSubsequence(a: seq<string>, b: seq<string>)
    decreases |b|
  {
    if a == [] then true
    else if b == [] then false
    else (a[0] == b[0] && IsSubsequence(a[1..], b[1..])) || IsSubsequence(a, b[1..])
  }

  /** prev.filter(s => s !== name). */
  function RemoveAll(names: seq<string>, name: string): (r: seq<string>)
    ensures name !in r
    ensures forall x :: x in r <==> x in names && x != name
    ensures |r| <= |names|
  {
    if names == [] then []
    else (if names[0] == name then [] else [names[0]]) + RemoveAll(names[1..], name)
  }

  /** toggleSubject: removes every occurrence of the name when present, otherwise appends it. */
  function ToggleSubject(prev: seq<string>, name: string): (r: seq<string>)
    ensures name in r <==> name !in prev
    ensures forall x :: x != name ==> (x in r <==> x in prev)
  {
    if name in prev then RemoveAll(prev, name) else prev + [name]
  }

  /** Removal keeps every other entry, with its multiplicity. */
  lemma {:induction false} RemoveAllCounts(names: seq<string>, name: string)
    ensures multiset(RemoveAll(names, name)) == multiset(names)[name := 0]
  {
    if names != [] {
      RemoveAllCounts(names[1..], name);
      assert names == [names[0]] + names[1..];
    }
  }

  /** Removal keeps the relative order of the remaining entries. */
  lemma {:induction false} RemoveAllIsSubsequence(names: seq<string>, name: string)
    ensures IsSubsequence(RemoveAll(names, name), names)
  {
    if names != [] {
      RemoveAllIsSubsequence(names[1..], name);
      var r := RemoveAll(names, name);
      if names[0] != name {
        assert r[0] == names[0] && r[1..] == RemoveAll(names[1..], name);
      } else {
        assert r == RemoveAll(names[1..], name);
      }
    }
  }

  lemma {:induction false} RemoveAllAbsent(names: seq<string>, name: string)
    requires name !in names
    ensures RemoveAll(names, name) == names
  {
    if names != [] {
      RemoveAllAbsent(names[1..], name);
      assert names == [names[0]] + names[1..];
    }
  }

  lemma {:induction false} RemoveAllAppend(a: seq<string>, b: seq<string>, name: string)
    ensures RemoveAll(a + b, name) == RemoveAll(a, name) + RemoveAll(b, name)
  {
    if a == [] {
      assert a + b == b;
    } else {
      var head := if a[0] == name then [] else [a[0]];
      assert (a + b)[0] == a[0] && (a + b)[1..] == a[1..] + b;
      assert RemoveAll(a + b, name) == head + RemoveAll(a[1..] + b, name);
      RemoveAllAppend(a[1..], b, name);
      assert RemoveAll(a, name) == head + RemoveAll(a[1..], name);
    }
  }

  lemma DistinctCons(c: string, s: seq<string>)
    requires c !in s && Distinct(s)
    ensures Distinct([c] + s)
  {
    var t := [c] + s;
    forall i, j | 0 <= i < j < |t| ensures t[i] != t[j] {
      assert t[j] == s[j - 1];
      if i > 0 {
        assert t[i] == s[i - 1];
      }
    }
  }

  lemma {:induction false} RemoveAllDistinct(names: seq<string>, name: string)
    requires Distinct(names)
    ensures Distinct(RemoveAll(names, name))
  {
    if names != [] {
      var rest := names[1..];
      assert Distinct(rest) by {
        forall i, j | 0 <= i < j < |rest| ensures rest[i] != rest[j] {
          assert rest[i] == names[i + 1] && rest[j] == names[j + 1];
        }
      }
      RemoveAllDistinct(rest, name);
      if names[0] != name {
        assert names[0] !in rest by {
          forall k | 0 <= k < |rest| ensures rest[k] != names[0] {
            assert rest[k] == names[k + 1];
          }
        }
        DistinctCons(names[0], RemoveAll(rest, name));
      }
    }
  }

  /**
   * Removing keeps the others, in order and with their multiplicities; appending puts the
   * name after an unchanged list.
   */
  lemma ToggleSubjectShape(prev: seq<string>, name: string)
    ensures name in prev ==>
      var r := ToggleSubject(prev, name);
      IsSubsequence(r, prev) && multiset(r) == multiset(prev)[name := 0]
    ensures name !in prev ==>
      var r := ToggleSubject(prev, name);
      |r| == |prev| + 1 && r[..|prev|] == prev && r[|prev|] == name
  {
    if name in prev {
      RemoveAllIsSubsequence(prev, name);
      RemoveAllCounts(prev, name);
    } else {
      assert (prev + [name])[..|prev|] == prev;
    }
  }

  /** A duplicate-free list stays duplicate-free. */
  lemma ToggleSubjectDistinct(prev: seq<string>, name: string)
    requires Distinct(prev)
    ensures Distinct(ToggleSubject(prev, name))
  {
    if name in prev {
      RemoveAllDistinct(prev, name);
    } else {
      var r := prev + [name];
      forall i, j | 0 <= i < j < |r| ensures r[i] != r[j] {
        if j == |prev| {
          assert r[i] == prev[i];
        } else {
          assert r[i] == prev[i] && r[j] == prev[j];
        }
      }
    }
  }

  /** Expanding a collapsed subject and collapsing it again gives back the list. */
  lemma ToggleSubjectTwice(prev: seq<string>, name: string)
    requires name !in prev
    ensures ToggleSubject(ToggleSubject(prev, name), name) == prev
  {
    RemoveAllAppend(prev, [name], name);
    RemoveAllAbsent(prev, name);
    assert RemoveAll([name], name) == [];
  }

  /** The list after a series of clicks on subject names. */
  function ApplyToggles(start: seq<string>, clicks: seq<string>): seq<string>
    decreases |clicks|
  {
    if clicks == [] then start else ApplyToggles(ToggleSubject(start, clicks[0]), clicks[1..])
  }

  lemma {:induction false} ApplyTogglesDistinct(start: seq<string>, clicks: seq<string>)
    requires Distinct(start)
    ensures Distinct(ApplyToggles(start, clicks))
    decreases |clicks|
  {
    if clicks != [] {
      ToggleSubjectDistinct(start, clicks[0]);
      ApplyTogglesDistinct(ToggleSubject(start, clicks[0]), clicks[1..]);
    }
  }

  /** Whatever subjects are clicked, starting from the initial list, no name is ever listed twice. */
  lemma ExpandedSubjectsDistinct(clicks: seq<string>)
    ensures Distinct(ApplyToggles(InitialExpandedSubjects, clicks))
  {
    ApplyTogglesDistinct(InitialExpandedSubjects, clicks);
  }
}
