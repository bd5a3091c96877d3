/**
 * An image's landmark manager: labelled landmark groups kept in insertion
 * order, with `landmarks[key] = shape` assignment and wildcard lookup of the
 * labels matching `'*{pattern}*'`.
 */
module Landmarks {
  import opened Wrappers
  import opened Geometry

  datatype LandmarkGroups = LandmarkGroups(labels: seq<string>, groups: map<string, Shape>)
  {
    /** The labels are the map's keys, each once, in insertion order. */
    ghost predicate Consistent()
    {
      && (forall k :: k in groups <==> k in labels)
      && (forall i, j :: 0 <= i < j < |labels| ==> labels[i] != labels[j])
    }
  }

  /** A landmark manager as a Python dictionary holds it: unique keys, insertion order. */
  type Landmarks = l: LandmarkGroups | l.Consistent() witness LandmarkGroups([], map[])

  /** `landmarks[key]`, or None where Python raises KeyError. */
  function Get(l: Landmarks, key: string): (r: Option<Shape>)
    ensures r.Some? <==> key in l.labels
    ensures r.Some? ==> r.value == l.groups[key]
  {
    if key in l.groups then Some(l.groups[key]) else None
  }

  /**
   * `landmarks[key] = shape`: an existing label keeps its place and gets the
   * new shape; a new label is appended after all existing ones.
   */
  function Set(l: Landmarks, key: string, shape: Shape): (r: Landmarks)
    ensures r.groups == l.groups[key := shape]
    ensures key in l.labels ==> r.labels == l.labels
    ensures key !in l.labels ==> r.labels == l.labels + [key]
  {
    if key in l.groups then LandmarkGroups(l.labels, l.groups[key := shape])
    else LandmarkGroups(l.labels + [key], l.groups[key := shape])
  }

  /** `sub` occurs in `s` at some position (the glob `'*{sub}*'` without metacharacters). */
  predicate Contains(s: string, sub: string)
  {
    sub <= s || (|s| > 0 && Contains(s[1..], sub))
  }

  lemma {:induction false} ContainsAt(s: string, sub: string, i: nat)
    requires i + |sub| <= |s| && s[i..i + |sub|] == sub
    ensures Contains(s, sub)
  {
    if i > 0 {
      assert s[1..][i - 1..i - 1 + |sub|] == s[i..i + |sub|];
      ContainsAt(s[1..], sub, i - 1);
    }
  }

  /** A label that starts with `pattern` matches `'*{pattern}*'`. */
  lemma PrefixContains(pattern: string, rest: string)
    ensures Contains(pattern + rest, pattern)
  {
    assert pattern <= pattern + rest;
  }

  /** The labels of `labels` that match `'*{pattern}*'`, in their order. */
  function Matching(labels: seq<string>, pattern: string): (r: seq<string>)
    ensures forall k :: k in r <==> k in labels && Contains(k, pattern)
    ensures |r| <= |labels|
  {
    if labels == [] then []
    else (if Contains(labels[0], pattern) then [labels[0]] else []) + Matching(labels[1..], pattern)
  }

  /** `landmarks.keys_matching('*{pattern}*')`. */
  function KeysMatching(l: Landmarks, pattern: string): seq<string>
  {
    Matching(l.labels, pattern)
  }

  lemma {:induction false} MatchingAppend(a: seq<string>, b: seq<string>, pattern: string)
    ensures Matching(a + b, pattern) == Matching(a, pattern) + Matching(b, pattern)
  {
    if a == [] {
      assert a + b == b;
    } else {
      assert (a + b)[1..] == a[1..] + b;
      MatchingAppend(a[1..], b, pattern);
    }
  }

  /**
   * Assigning a label that matches the pattern appends it to the matching
   * keys when it is new, and leaves the matching keys alone when it exists.
   */
  lemma KeysMatchingAfterSet(l: Landmarks, key: string, shape: Shape, pattern: string)
    requires Contains(key, pattern)
    ensures key !in l.labels ==> KeysMatching(Set(l, key, shape), pattern) == KeysMatching(l, pattern) + [key]
    ensures key in l.labels ==> KeysMatching(Set(l, key, shape), pattern) == KeysMatching(l, pattern)
  {
    if key !in l.labels {
      MatchingAppend(l.labels, [key], pattern);
      assert Matching([key], pattern) == [key] by {
        assert [key][1..] == [];
      }
    }
  }
}
