/**
 What `normalise_text` keeps of a text, said of positions in it: which characters come out, and
 between which of them a space stands.
 */
module Spacing {
  import opened Basics
  import opened Text

  /** Where the characters are that are no white space, in order. */
  function Places(s: string): seq<nat>
    decreases |s|
  {
    if s == "" then []
    else
      var n := |s| - 1;
      Places(s[..n]) + if IsSpace(s[n]) then [] else [n]
  }

  lemma {:induction false} PlacesExact(s: string)
    ensures forall k | 0 <= k < |Places(s)| :: Places(s)[k] < |s| && !IsSpace(s[Places(s)[k]])
    ensures forall j, k | 0 <= j < k < |Places(s)| :: Places(s)[j] < Places(s)[k]
    ensures forall i | 0 <= i < |s| && !IsSpace(s[i]) :: i in Places(s)
    decreases |s|
  {
    hide IsSpace;
    if s != "" {
      var n := |s| - 1;
      PlacesExact(s[..n]);
      var p := Places(s[..n]);
      assert Places(s)[..|p|] == p;
      forall i | 0 <= i < |s| && !IsSpace(s[i]) ensures i in Places(s) {
        if i < n {
          assert s[..n][i] == s[i];
        }
      }
    }
  }

  /** The same, squeezed character by character: a blank stands for all those before the next one. */
  function Squeezed(s: string): string
    decreases |s|
  {
    if s == "" then ""
    else
      var n := |s| - 1;
      var rest := Squeezed(s[..n]);
      if IsSpace(s[n]) then rest
      else if n > 0 && IsSpace(s[n - 1]) && rest != "" then rest + " " + [s[n]]
      else rest + [s[n]]
  }

  // ---------------------------------------------- words, joined, are the same

  lemma {:induction false} SqueezedWord(s: string)
    requires Spaceless(s)
    ensures Squeezed(s) == s
    decreases |s|
  {
    hide IsSpace;
    if s != "" {
      var n := |s| - 1;
      assert s[n] in s && (n > 0 ==> s[n - 1] in s);
      assert forall c | c in s[..n] :: c in s;
      SqueezedWord(s[..n]);
      assert s == s[..n] + [s[n]];
    }
  }

  lemma {:induction false} SqueezedBlank(c: char, s: string)
    requires IsSpace(c)
    ensures Squeezed([c] + s) == Squeezed(s)
    decreases |s|
  {
    hide IsSpace;
    if s == "" {
      assert [c] + s == [c] && [c][..0] == "";
    } else {
      var n := |s| - 1;
      SqueezedBlank(c, s[..n]);
      assert ([c] + s)[..n + 1] == [c] + s[..n];
      if n == 0 {
        assert s[..0] == "" && Squeezed("") == "";
      }
    }
  }

  lemma SqueezedNext(s: string, c: char)
    ensures Squeezed(s + [c])
            == if IsSpace(c) then Squeezed(s)
               else if s != "" && IsSpace(s[|s| - 1]) && Squeezed(s) != "" then Squeezed(s) + (" " + [c])
               else Squeezed(s) + [c]
  {
    hide IsSpace;
    var t := s + [c];
    assert t[..|t| - 1] == s && t[|t| - 1] == c;
    Assoc(Squeezed(s), " ", [c]);
  }

  lemma {:induction false} SqueezedAfterWord(w: string, v: string)
    requires IsWord(w) && (v == "" || IsSpace(v[0]))
    ensures Squeezed(w + v) == w + if Squeezed(v) == "" then "" else " " + Squeezed(v)
    decreases |v|
  {
    hide IsSpace, Squeezed, IsWord;
    if v == "" {
      AfterWordNone(w);
    } else {
      var n := |v| - 1;
      var u, c := v[..n], v[n];
      assert v == u + [c];
      if n == 0 {
        AfterWordFirst(w, c);
      } else {
        SqueezedAfterWord(w, u);
        AfterWordNone(w);
        Assoc(w, u, [c]);
        AfterWordNext(w, u, c);
      }
    }
  }

  lemma AfterWordNone(w: string)
    requires IsWord(w)
    ensures w != "" && w + "" == w && Squeezed(w) == w && Squeezed("") == ""
  {
    SqueezedWord(w);
  }

  lemma AfterWordFirst(w: string, c: char)
    requires IsWord(w) && IsSpace(c)
    ensures Squeezed(w + [c]) == w && Squeezed([c]) == "" && w + "" == w
  {
    SqueezedWord(w);
    SqueezedNext("", c);
    SqueezedNext(w, c);
    assert "" + [c] == [c];
  }

  lemma AfterWordNext(w: string, u: string, c: char)
    requires w != "" && u != "" && Squeezed(w + u) == w + (if Squeezed(u) == "" then "" else " " + Squeezed(u))
    ensures Squeezed((w + u) + [c]) == w + if Squeezed(u + [c]) == "" then "" else " " + Squeezed(u + [c])
  {
    hide IsSpace, Squeezed;
    SqueezedNext(u, c);
    SqueezedNext(w + u, c);
    assert (w + u)[|w + u| - 1] == u[|u| - 1];
    var r := Squeezed(u);
    if !IsSpace(c) {
      if r == "" {
        BlankEnd(u);
        assert w + "" == w;
      } else {
        Assoc(w, " " + r, " " + [c]);
        Assoc(" ", r, " " + [c]);
        Assoc(w, " " + r, [c]);
        Assoc(" ", r, [c]);
      }
    }
  }

  lemma BlankEnd(u: string)
    requires u != "" && Squeezed(u) == ""
    ensures IsSpace(u[|u| - 1])
  {
    hide IsSpace;
    SqueezedIsBlank(u);
  }

  lemma {:induction false} SqueezedIsBlank(s: string)
    requires Squeezed(s) == ""
    ensures forall i | 0 <= i < |s| :: IsSpace(s[i])
    decreases |s|
  {
    hide IsSpace;
    if s != "" {
      var n := |s| - 1;
      SqueezedIsBlank(s[..n]);
      forall i | 0 <= i < |s| ensures IsSpace(s[i]) {
        if i < n {
          assert s[..n][i] == s[i];
        }
      }
    }
  }

  lemma {:induction false} SqueezedWords(s: string)
    ensures Join(Words(s)) == Squeezed(s)
    ensures Words(s) == [] <==> Squeezed(s) == ""
    decreases |s|
  {
    hide IsSpace;
    if s == "" {
    } else if IsSpace(s[0]) {
      SqueezedWords(s[1..]);
      SqueezedBlank(s[0], s[1..]);
      assert [s[0]] + s[1..] == s;
    } else {
      var n := WordLength(s);
      var w, v := s[..n], s[n..];
      assert IsWord(w) by {
        assert n > 0;
        forall c | c in w ensures !IsSpace(c) {
          var i :| 0 <= i < n && s[i] == c;
        }
      }
      SqueezedWords(v);
      SqueezedAfterWord(w, v);
      assert w + v == s;
      assert Words(s) == [w] + Words(v);
      JoinFirst(w, Words(v));
    }
  }

  lemma JoinFirst(w: string, words: seq<string>)
    ensures Join([w] + words) == w + if words == [] then "" else " " + Join(words)
  {
    assert ([w] + words)[1..] == words;
    if words == [] {
      assert [w] + words == [w] && w + "" == w;
    } else {
      Assoc(w, " ", Join(words));
    }
  }

  // ------------------------------------------------------- letters and gaps

  /** The characters that are no white space, in order. */
  function Letters(s: string): string {
    PlacesExact(s);
    seq(|Places(s)|, k requires 0 <= k < |Places(s)| => s[Places(s)[k]])
  }

  /** Before which of them white space stands, the first one aside. */
  function Gaps(s: string): seq<bool> {
    GapsAt(Places(s))
  }

  function GapsAt(p: seq<nat>): seq<bool> {
    seq(|p|, k requires 0 <= k < |p| => k > 0 && p[k] != p[k - 1] + 1)
  }

  function Build(letters: string, gaps: seq<bool>): string
    requires |letters| == |gaps|
    decreases |letters|
  {
    if letters == "" then ""
    else
      var n := |letters| - 1;
      Build(letters[..n], gaps[..n]) + (if n > 0 && gaps[n] then " " else "") + [letters[n]]
  }

  /** One more character at the end of a text. */
  lemma PlacesNext(s: string, c: char)
    ensures Places(s + [c]) == Places(s) + if IsSpace(c) then [] else [|s|]
  {
    hide IsSpace;
    var t := s + [c];
    assert t[..|s|] == s && t[|s|] == c;
  }

  lemma LettersNext(s: string, c: char)
    ensures Letters(s + [c]) == Letters(s) + if IsSpace(c) then "" else [c]
  {
    hide IsSpace, Places;
    PlacesExact(s);
    PlacesNext(s, c);
  }

  lemma GapsNext(s: string, c: char)
    ensures Gaps(s + [c])
            == Gaps(s) + if IsSpace(c) then [] else [Places(s) != [] && Places(s)[|Places(s)| - 1] != |s| - 1]
  {
    hide IsSpace, Places;
    PlacesNext(s, c);
    GapsOf(Places(s), Places(s + [c]));
  }

  lemma GapsOf(p: seq<nat>, q: seq<nat>)
    requires |p| <= |q| <= |p| + 1 && q[..|p|] == p
    ensures GapsAt(q) == GapsAt(p) + if |q| == |p| then [] else [p != [] && q[|p|] != p[|p| - 1] + 1]
  {
    forall k | 0 <= k < |p| ensures q[k] == p[k] {
      assert q[..|p|][k] == p[k];
    }
  }

  lemma LastPlace(s: string)
    requires s != ""
    ensures Places(s) != [] && Places(s)[|Places(s)| - 1] == |s| - 1 <==> !IsSpace(s[|s| - 1])
  {
    PlacesExact(s);
    hide IsSpace;
  }

  lemma {:induction false} SqueezedBuilt(s: string)
    ensures Squeezed(s) == Build(Letters(s), Gaps(s))
    ensures Squeezed(s) == "" <==> Places(s) == []
    decreases |s|
  {
    hide IsSpace;
    if s == "" {
    } else {
      var n := |s| - 1;
      var u, c := s[..n], s[n];
      assert s == u + [c];
      SqueezedBuilt(u);
      SqueezedNext(u, c);
      LettersNext(u, c);
      GapsNext(u, c);
      PlacesNext(u, c);
      if u != "" { LastPlace(u); }
      LettersAndGaps(u);
      hide Squeezed, Places, Letters, Gaps;
      if IsSpace(c) {
        assert Letters(u) + "" == Letters(u) && Gaps(u) + [] == Gaps(u);
      } else {
        BuildNext(Letters(u), Gaps(u), c, Places(u) != [] && Places(u)[|Places(u)| - 1] != n - 1);
      }
    }
  }

  lemma BuildNext(letters: string, gaps: seq<bool>, c: char, gap: bool)
    requires |letters| == |gaps|
    ensures Build(letters + [c], gaps + [gap])
            == Build(letters, gaps) + if letters != "" && gap then " " + [c] else [c]
  {
    var n := |letters|;
    var ls, gs := letters + [c], gaps + [gap];
    assert |ls| - 1 == n && ls[..n] == letters && gs[..n] == gaps && ls[n] == c && gs[n] == gap;
    var before := Build(letters, gaps);
    assert Build(ls, gs) == before + (if n > 0 && gap then " " else "") + [c];
    Assoc(before, " ", [c]);
    assert before + "" == before;
  }

  /** The letters stand at `p` in `t`, and between them one space for every gap, and nothing else. */
  predicate Laid(t: string, p: seq<nat>, letters: string, gaps: seq<bool>)
    requires |letters| == |gaps|
  {
    && |p| == |letters| && (forall k | 0 <= k < |p| :: p[k] < |t| && t[p[k]] == letters[k])
    && (if t == "" then p == [] else p != [] && p[0] == 0 && p[|p| - 1] == |t| - 1)
    && (forall k | 0 < k < |p| ::
          if gaps[k] then p[k] == p[k - 1] + 2 && t[p[k] - 1] == ' ' else p[k] == p[k - 1] + 1)
  }

  lemma LaidNext(t: string, p: seq<nat>, letters: string, gaps: seq<bool>, c: char, gap: bool)
    requires |letters| == |gaps| && Laid(t, p, letters, gaps)
    ensures if letters != "" && gap then Laid(t + (" " + [c]), p + [|t| + 1], letters + [c], gaps + [gap])
            else Laid(t + [c], p + [|t|], letters + [c], gaps + [gap])
  {
  }

  /** What is built has the letters, and one space for every gap. */
  lemma {:induction false} BuildPlaces(letters: string, gaps: seq<bool>)
    requires |letters| == |gaps| && forall k | 0 <= k < |letters| :: !IsSpace(letters[k])
    ensures Laid(Build(letters, gaps), Places(Build(letters, gaps)), letters, gaps)
    decreases |letters|
  {
    hide IsSpace, Laid;
    if letters == "" {
      NothingLaid();
    } else {
      var n := |letters| - 1;
      var ls, gs, c, gap := letters[..n], gaps[..n], letters[n], gaps[n];
      assert letters == ls + [c] && gaps == gs + [gap];
      BuildPlaces(ls, gs);
      BuildNext(ls, gs, c, gap);
      var u := Build(ls, gs);
      LaidNext(u, Places(u), ls, gs, c, gap);
      hide Build, Places;
      if ls != "" && gap {
        SpaceIsSpace();
        PlacesNext(u, ' ');
        PlacesNext(u + [' '], c);
        Assoc(u, " ", [c]);
        assert Places(u) + [] == Places(u);
      } else {
        PlacesNext(u, c);
      }
    }
  }

  lemma NothingLaid()
    ensures Laid("", [], "", []) && Build("", []) == "" && Places("") == []
  {
  }

  lemma SpaceIsSpace()
    ensures IsSpace(' ')
  {
  }

  lemma LettersAndGaps(s: string)
    ensures |Letters(s)| == |Gaps(s)| == |Places(s)|
    ensures forall k | 0 <= k < |Letters(s)| :: !IsSpace(Letters(s)[k])
    ensures forall k | 0 <= k < |Places(s)| :: Places(s)[k] < |s| && Letters(s)[k] == s[Places(s)[k]]
    ensures forall k | 0 < k < |Places(s)| :: Gaps(s)[k] <==> Places(s)[k] != Places(s)[k - 1] + 1
  {
    hide IsSpace, Places;
    PlacesExact(s);
  }

  lemma NormalIsBuilt(s: string)
    ensures NormaliseText(s) == Build(Letters(NFC(s)), Gaps(NFC(s)))
  {
    hide Letters, Gaps;
    SqueezedWords(NFC(s));
    SqueezedBuilt(NFC(s));
  }

  /**
   What the normal form keeps of the NFC form: its characters that are no white space, in order,
   and nothing else but one space between two of them exactly where white space stands there.
   */
  lemma NormaliseTextExact(s: string)
    ensures var t, u := NormaliseText(s), NFC(s);
            var p, q := Places(t), Places(u);
            && |p| == |q| && (forall k | 0 <= k < |p| :: p[k] < |t| && q[k] < |u| && t[p[k]] == u[q[k]])
            && (if t == "" then p == [] else p != [] && p[0] == 0 && p[|p| - 1] == |t| - 1)
            && (forall k | 0 < k < |p| ::
                  if q[k] == q[k - 1] + 1 then p[k] == p[k - 1] + 1 else p[k] == p[k - 1] + 2 && t[p[k] - 1] == ' ')
  {
    hide IsSpace, Letters, Gaps, NormaliseText, Build, Places;
    var u := NFC(s);
    NormalIsBuilt(s);
    LettersAndGaps(u);
    BuildPlaces(Letters(u), Gaps(u));
  }

  /** The same characters at the given places, and white space between the same ones. */
  predicate SameSpelling(u: string, p: seq<nat>, v: string, q: seq<nat>)
    requires (forall k | 0 <= k < |p| :: p[k] < |u|) && (forall k | 0 <= k < |q| :: q[k] < |v|)
  {
    && |p| == |q| && (forall k | 0 <= k < |p| :: u[p[k]] == v[q[k]])
    && forall k | 0 < k < |p| :: p[k] == p[k - 1] + 1 <==> q[k] == q[k - 1] + 1
  }

  /**
   Two texts have one normal form exactly when their NFC forms have the same characters with white
   space between the same ones, however much of it, and whatever blanks they begin and end with.
   */
  lemma AlikeExact(a: string, b: string)
    ensures var u, v := NFC(a), NFC(b);
            var p, q := Places(u), Places(v);
            (forall k | 0 <= k < |p| :: p[k] < |u|) && (forall k | 0 <= k < |q| :: q[k] < |v|)
            && (NormaliseText(a) == NormaliseText(b)
                <==> SameSpelling(u, p, v, q))
  {
    hide IsSpace, Letters, Gaps, NormaliseText, Build, Places;
    var u, v := NFC(a), NFC(b);
    LettersAndGaps(u);
    LettersAndGaps(v);
    if NormaliseText(a) == NormaliseText(b) {
      NormaliseTextExact(a);
      NormaliseTextExact(b);
    }
    if SameSpelling(u, Places(u), v, Places(v)) {
      SpelledAlike(u, v);
      NormalIsBuilt(a);
      NormalIsBuilt(b);
    }
  }

  lemma SpelledAlike(u: string, v: string)
    requires (forall k | 0 <= k < |Places(u)| :: Places(u)[k] < |u|) && (forall k | 0 <= k < |Places(v)| :: Places(v)[k] < |v|)
    requires SameSpelling(u, Places(u), v, Places(v))
    ensures Letters(u) == Letters(v) && Gaps(u) == Gaps(v)
  {
    hide IsSpace, Places;
  }
}
