/** Names of Data objects: the DataSet name and the last two dash-separated segments of the pod name. */
module Names {

  /** Splits at every occurrence of the separator; never empty. */
  function Split(s: string, sep: char): (parts: seq<string>)
    ensures |parts| >= 1
  {
    if s == [] then [""]
    else
      var rest := Split(s[1..], sep);
      if s[0] == sep then [""] + rest else [[s[0]] + rest[0]] + rest[1..]
  }

  function Join(parts: seq<string>, sep: char): string {
    if |parts| == 0 then ""
    else if |parts| == 1 then parts[0]
    else parts[0] + [sep] + Join(parts[1..], sep)
  }

  /** The source slices off the last two segments, which panics on a name without a dash. */
  predicate HasSuffix(podName: string) {
    |Split(podName, '-')| >= 2
  }

  function PodSuffix(podName: string): (suffix: seq<string>)
    requires HasSuffix(podName)
    ensures |suffix| == 2
  {
    var parts := Split(podName, '-');
    parts[|parts| - 2..]
  }

  function DataNameByPod(dsName: string, podName: string): string
    requires HasSuffix(podName)
  {
    dsName + "-" + Join(PodSuffix(podName), '-')
  }

  lemma {:induction false} JoinSplit(s: string, sep: char)
    ensures Join(Split(s, sep), sep) == s
  {
    if s != [] {
      var rest := Split(s[1..], sep);
      JoinSplit(s[1..], sep);
      if s[0] == sep {
        assert Split(s, sep) == [""] + rest && (([""] + rest)[1..] == rest);
      } else {
        var parts := Split(s, sep);
        assert parts[1..] == rest[1..];
      }
      assert s == [s[0]] + s[1..];
    }
  }

  lemma {:induction false} SegmentsHaveNoSeparator(s: string, sep: char, i: nat)
    requires i < |Split(s, sep)|
    ensures sep !in Split(s, sep)[i]
  {
    if s != [] {
      var rest := Split(s[1..], sep);
      if s[0] == sep {
        if i > 0 {
          SegmentsHaveNoSeparator(s[1..], sep, i - 1);
        }
      } else {
        SegmentsHaveNoSeparator(s[1..], sep, i);
      }
    }
  }

  /** A pod name can be named after exactly when it has a dash. */
  lemma {:induction false} HasSuffixIffDash(s: string)
    ensures HasSuffix(s) <==> '-' in s
  {
    if s != [] {
      HasSuffixIffDash(s[1..]);
      assert s == [s[0]] + s[1..];
    }
  }

  lemma NoLaterSeparator(a: string, x: string, sep: char)
    requires sep !in x
    ensures forall k :: |a| < k <= |a| + |x| ==> (a + [sep] + x)[k] != sep
  {
    forall k | |a| < k <= |a| + |x|
      ensures (a + [sep] + x)[k] != sep
    {
      assert (a + [sep] + x)[k] == x[k - |a| - 1];
    }
  }

  /** The last separator of a string is found the same way whatever comes before it. */
  lemma LastSegment(a: string, x: string, b: string, y: string, sep: char)
    requires sep !in x && sep !in y
    requires a + [sep] + x == b + [sep] + y
    ensures a == b && x == y
  {
    var s, t := a + [sep] + x, b + [sep] + y;
    assert s[|a|] == sep && t[|b|] == sep;
    NoLaterSeparator(a, x, sep);
    NoLaterSeparator(b, y, sep);
    assert |a| == |b|;
    assert a == s[..|a|] && b == t[..|b|];
    assert x == s[|a| + 1..] && y == t[|b| + 1..];
  }

  lemma JoinPair(parts: seq<string>, sep: char)
    requires |parts| == 2
    ensures Join(parts, sep) == parts[0] + [sep] + parts[1]
  {
    assert parts[1..] == [parts[1]];
  }

  lemma SuffixesDecode(d1: string, p1: string, d2: string, p2: string)
    requires HasSuffix(p1) && HasSuffix(p2)
    ensures DataNameByPod(d1, p1) == DataNameByPod(d2, p2) <==> d1 == d2 && PodSuffix(p1) == PodSuffix(p2)
  {
    var s1, s2 := PodSuffix(p1), PodSuffix(p2);
    var n1, n2 := |Split(p1, '-')|, |Split(p2, '-')|;
    SegmentsHaveNoSeparator(p1, '-', n1 - 2);
    SegmentsHaveNoSeparator(p1, '-', n1 - 1);
    SegmentsHaveNoSeparator(p2, '-', n2 - 2);
    SegmentsHaveNoSeparator(p2, '-', n2 - 1);
    JoinPair(s1, '-');
    JoinPair(s2, '-');
    if DataNameByPod(d1, p1) == DataNameByPod(d2, p2) {
      assert DataNameByPod(d1, p1) == (d1 + "-" + s1[0]) + "-" + s1[1];
      assert DataNameByPod(d2, p2) == (d2 + "-" + s2[0]) + "-" + s2[1];
      LastSegment(d1 + "-" + s1[0], s1[1], d2 + "-" + s2[0], s2[1], '-');
      LastSegment(d1, s1[0], d2, s2[0], '-');
    }
  }

  // ---------- The same on plain strings ----------

  lemma {:induction false} SplitWhole(s: string, sep: char)
    requires sep !in s
    ensures Split(s, sep) == [s]
  {
    if s != [] {
      SplitWhole(s[1..], sep);
      assert s == [s[0]] + s[1..];
    }
  }

  lemma {:induction false} SplitAt(s: string, t: string, sep: char)
    ensures Split(s + [sep] + t, sep) == Split(s, sep) + Split(t, sep)
  {
    var all := s + [sep] + t;
    if s == [] {
      assert all == [sep] + t && all[1..] == t;
    } else {
      assert all[1..] == s[1..] + [sep] + t;
      SplitAt(s[1..], t, sep);
    }
  }

  /** The last two dash-separated segments of the name are a and b; there may be a stem before them. */
  ghost predicate EndsIn(podName: string, a: string, b: string) {
    && '-' !in a && '-' !in b
    && (podName == a + "-" + b || exists stem: string :: podName == stem + "-" + a + "-" + b)
  }

  lemma SuffixOfStem(stem: string, a: string, b: string)
    requires '-' !in a && '-' !in b
    ensures HasSuffix(stem + "-" + a + "-" + b) && PodSuffix(stem + "-" + a + "-" + b) == [a, b]
  {
    SplitAt(stem + "-" + a, b, '-');
    SplitAt(stem, a, '-');
    SplitWhole(a, '-');
    SplitWhole(b, '-');
    assert Split(stem + "-" + a + "-" + b, '-') == Split(stem, '-') + [a] + [b];
  }

  lemma SuffixOfShort(a: string, b: string)
    requires '-' !in a && '-' !in b
    ensures HasSuffix(a + "-" + b) && PodSuffix(a + "-" + b) == [a, b]
  {
    SplitAt(a, b, '-');
    SplitWhole(a, '-');
    SplitWhole(b, '-');
  }

  lemma NameOfSuffix(dsName: string, podName: string, a: string, b: string)
    requires HasSuffix(podName) && PodSuffix(podName) == [a, b]
    ensures DataNameByPod(dsName, podName) == dsName + "-" + a + "-" + b
  {
    JoinPair([a, b], '-');
    assert dsName + "-" + (a + "-" + b) == dsName + "-" + a + "-" + b;
  }

  /** The Data of a pod is named after the DataSet and the last two segments of the pod's name, whatever stands before
      them. */
  lemma DataNameIs(dsName: string, podName: string, a: string, b: string)
    requires EndsIn(podName, a, b)
    ensures HasSuffix(podName) && PodSuffix(podName) == [a, b]
    ensures DataNameByPod(dsName, podName) == dsName + "-" + a + "-" + b
  {
    if podName == a + "-" + b {
      SuffixOfShort(a, b);
    } else {
      var stem: string :| podName == stem + "-" + a + "-" + b;
      SuffixOfStem(stem, a, b);
    }
    NameOfSuffix(dsName, podName, a, b);
  }

  lemma {:induction false} LastDash(s: string) returns (front: string, last: string)
    requires '-' in s
    ensures s == front + "-" + last && '-' !in last
  {
    var n := |s| - 1;
    assert s == s[..n] + [s[n]];
    if s[n] == '-' {
      front, last := s[..n], "";
    } else {
      front, last := LastDash(s[..n]);
      last := last + [s[n]];
    }
  }

  /** Every pod name with a dash has such an ending. */
  lemma EndsExist(podName: string) returns (a: string, b: string)
    requires '-' in podName
    ensures EndsIn(podName, a, b)
  {
    var front;
    front, b := LastDash(podName);
    if '-' in front {
      var stem;
      stem, a := LastDash(front);
      assert podName == stem + "-" + a + "-" + b;
    } else {
      a := front;
    }
  }

  /** Two Data names are equal exactly when the DataSets are, and the pods' last two segments are, even when the DataSet
      names contain dashes themselves. */
  lemma DataNamesDecode(d1: string, p1: string, a1: string, b1: string, d2: string, p2: string, a2: string, b2: string)
    requires EndsIn(p1, a1, b1) && EndsIn(p2, a2, b2)
    ensures HasSuffix(p1) && HasSuffix(p2)
    ensures DataNameByPod(d1, p1) == DataNameByPod(d2, p2) <==> d1 == d2 && a1 == a2 && b1 == b2
  {
    DataNameIs(d1, p1, a1, b1);
    DataNameIs(d2, p2, a2, b2);
    SuffixesDecode(d1, p1, d2, p2);
    assert [a1, b1] == [a2, b2] <==> a1 == a2 && b1 == b2;
  }
}
