/** Facts about strings and name lists shared by every containment level. */
module Text {

  /** `part` occurs in `whole` starting at position `i`. */
  predicate OccursAt(whole: string, part: string, i: int)
  {
    0 <= i <= |whole| - |part| && whole[i..i + |part|] == part
  }

  /** `part` occurs as a contiguous slice of `whole`: the message "mentions" it. */
  ghost predicate Embeds(whole: string, part: string)
  {
    exists i :: OccursAt(whole, part, i)
  }

  lemma EmbedsAt(whole: string, part: string, i: int)
    requires OccursAt(whole, part, i)
    ensures Embeds(whole, part)
  {
  }

  /** A string that is `prefix + part + suffix` mentions `part`. */
  lemma EmbedsMiddle(prefix: string, part: string, suffix: string)
    ensures Embeds(prefix + part + suffix, part)
  {
    var whole := prefix + part + suffix;
    assert whole[|prefix|..|prefix| + |part|] == part;
    EmbedsAt(whole, part, |prefix|);
  }

  /** A string that ends with `part` mentions it. */
  lemma EmbedsSuffix(prefix: string, part: string)
    ensures Embeds(prefix + part, part)
  {
    assert (prefix + part)[|prefix|..|prefix| + |part|] == part;
    EmbedsAt(prefix + part, part, |prefix|);
  }

  /** Mentioning is transitive: a message that wraps another mentions all it mentions. */
  lemma EmbedsTransitive(outer: string, middle: string, inner: string)
    requires Embeds(outer, middle) && Embeds(middle, inner)
    ensures Embeds(outer, inner)
  {
    var i :| OccursAt(outer, middle, i);
    var j :| OccursAt(middle, inner, j);
    forall k | 0 <= k < |inner| ensures outer[i + j + k] == inner[k] {
      assert inner[k] == middle[j + k] == outer[i..i + |middle|][j + k];
    }
    assert outer[i + j..i + j + |inner|] == inner;
    EmbedsAt(outer, inner, i + j);
  }

  lemma ConcatAssociative(a: string, b: string, c: string)
    ensures (a + b) + c == a + (b + c)
  {
  }

  /** No two positions of `names` hold the same name. */
  predicate Distinct(names: seq<string>)
  {
    forall i, j :: 0 <= i < j < |names| ==> names[i] != names[j]
  }

  /** The names collected into a hash set. */
  function NameSet(names: seq<string>): set<string>
  {
    set n | n in names
  }

  /** The uniqueness test of the constructors: the hash set of names is as large as the list. */
  predicate HasUniqueNames(names: seq<string>)
  {
    |NameSet(names)| == |names|
  }

  lemma {:induction false} NameSetBound(names: seq<string>)
    ensures |NameSet(names)| <= |names|
    ensures |NameSet(names)| == |names| <==> Distinct(names)
  {
    if names != [] {
      var rest := names[1..];
      NameSetBound(rest);
      assert NameSet(names) == {names[0]} + NameSet(rest);
      if names[0] in rest {
        var j :| 0 <= j < |rest| && rest[j] == names[0];
        assert names[0] == names[j + 1];
        assert NameSet(names) == NameSet(rest);
      } else {
        assert |NameSet(names)| == |NameSet(rest)| + 1;
        if Distinct(rest) {
          forall i, j | 0 <= i < j < |names| ensures names[i] != names[j] {
            if i == 0 {
              assert names[j] == rest[j - 1];
            } else {
              assert names[i] == rest[i - 1] && names[j] == rest[j - 1];
            }
          }
        } else {
          var i, j :| 0 <= i < j < |rest| && rest[i] == rest[j];
          assert names[i + 1] == names[j + 1];
        }
      }
    }
  }

  /** The hash-set size test accepts exactly the lists of pairwise distinct names. */
  lemma UniqueIffDistinct(names: seq<string>)
    ensures HasUniqueNames(names) <==> Distinct(names)
  {
    NameSetBound(names);
  }
}
