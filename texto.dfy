/** The JavaScript string operations the core relies on: `toLowerCase`, `includes`,
    `startsWith` and `trim`. */
module Texto {

  /** `toLowerCase` on the letters Spanish labels use: ASCII capitals and the accented
      capitals and Ñ/Ü; every other character is left alone. */
  function LowerChar(c: char): (d: char)
    ensures 'A' <= c <= 'Z' ==> d as int == c as int + 32
    ensures !('A' <= c <= 'Z') && c !in "ÁÉÍÓÚÑÜ" ==> d == c
  {
    if 'A' <= c <= 'Z' then (c as int + 32) as char
    else if c == 'Á' then 'á'
    else if c == 'É' then 'é'
    else if c == 'Í' then 'í'
    else if c == 'Ó' then 'ó'
    else if c == 'Ú' then 'ú'
    else if c == 'Ñ' then 'ñ'
    else if c == 'Ü' then 'ü'
    else c
  }

  function Lower(s: string): (r: string)
    ensures |r| == |s|
    ensures forall i :: 0 <= i < |s| ==> r[i] == LowerChar(s[i])
  {
    if s == [] then [] else [LowerChar(s[0])] + Lower(s[1..])
  }

  lemma LowerCharIdempotent(c: char)
    ensures LowerChar(LowerChar(c)) == LowerChar(c)
  {
  }

  /** Lower-casing twice is lower-casing once. */
  lemma LowerIdempotent(s: string)
    ensures Lower(Lower(s)) == Lower(s)
  {
    var l := Lower(s);
    forall i | 0 <= i < |s| ensures Lower(l)[i] == l[i] {
      LowerCharIdempotent(s[i]);
    }
  }

  /** A character `toLowerCase` leaves unchanged in this model. */
  predicate SinMayuscula(c: char)
  {
    !('A' <= c <= 'Z') && c != 'Á' && c != 'É' && c != 'Í' && c != 'Ó' && c != 'Ú' && c != 'Ñ' && c != 'Ü'
  }

  lemma LowerSinMayusculas(s: string)
    requires forall i :: 0 <= i < |s| ==> SinMayuscula(s[i])
    ensures Lower(s) == s
  {
    assert forall i :: 0 <= i < |s| ==> Lower(s)[i] == s[i];
  }

  lemma LowerCons(c: char, s: string)
    ensures Lower([c] + s) == [LowerChar(c)] + Lower(s)
  {
    assert ([c] + s)[1..] == s;
  }

  /** `sub` occurs in `s` starting at index `i`. */
  predicate OccursAt(s: string, sub: string, i: int)
  {
    0 <= i <= |s| - |sub| && s[i..i + |sub|] == sub
  }

  /** `s.includes(sub)`, computed by scanning. */
  function Contains(s: string, sub: string): bool
  {
    if |sub| > |s| then false
    else if s[..|sub|] == sub then true
    else Contains(s[1..], sub)
  }

  /** The scan finds `sub` exactly when it occurs somewhere in `s`. */
  lemma {:induction false} ContainsOccurs(s: string, sub: string)
    ensures Contains(s, sub) <==> exists i :: OccursAt(s, sub, i)
  {
    if |sub| > |s| {
    } else if s[..|sub|] == sub {
      assert OccursAt(s, sub, 0);
    } else {
      ContainsOccurs(s[1..], sub);
      if Contains(s[1..], sub) {
        var j :| OccursAt(s[1..], sub, j);
        assert s[j + 1..j + 1 + |sub|] == sub;
        assert OccursAt(s, sub, j + 1);
      }
      if exists i :: OccursAt(s, sub, i) {
        var i :| OccursAt(s, sub, i);
        assert i != 0;
        assert s[1..][i - 1..i - 1 + |sub|] == sub;
        assert OccursAt(s[1..], sub, i - 1);
      }
    }
  }

  /** A string that lacks some character of `sub` cannot contain `sub`. */
  lemma SinCaracter(s: string, sub: string, c: char)
    requires c in sub && c !in s
    ensures !Contains(s, sub)
  {
    ContainsOccurs(s, sub);
    var k :| 0 <= k < |sub| && sub[k] == c;
    forall i ensures !OccursAt(s, sub, i) {
      if 0 <= i <= |s| - |sub| {
        assert s[i..i + |sub|][k] == s[i + k] != c;
      }
    }
  }

  /** A string contains any substring placed inside it. */
  lemma ContainsInfix(a: string, sub: string, b: string)
    ensures Contains(a + sub + b, sub)
  {
    ContainsOccurs(a + sub + b, sub);
    assert (a + sub + b)[|a|..|a| + |sub|] == sub;
    assert OccursAt(a + sub + b, sub, |a|);
  }

  /** `s.startsWith(p)`. */
  predicate StartsWith(s: string, p: string)
  {
    |p| <= |s| && s[..|p|] == p
  }

  /**
   * The characters `String.prototype.trim` removes and the regular-expression class `\s`
   * matches: the ECMAScript WhiteSpace and LineTerminator code points.
   */
  predicate IsSpace(c: char)
  {
    || c == '\t' || c == '\n' || c == '\U{000B}' || c == '\U{000C}' || c == '\r' || c == ' '
    || c == '\U{00A0}' || c == '\U{1680}' || '\U{2000}' <= c <= '\U{200A}'
    || c == '\U{2028}' || c == '\U{2029}' || c == '\U{202F}' || c == '\U{205F}'
    || c == '\U{3000}' || c == '\U{FEFF}'
  }

  /**
   * `s.trim()`: leading white space is dropped first, then trailing white space, leaving
   * an empty string or one with no white space at either end.
   */
  function Trim(s: string): (r: string)
    ensures |r| <= |s|
    ensures r == [] || Recortado(r)
  {
    if s != [] && IsSpace(s[0]) then Trim(s[1..])
    else if s != [] && IsSpace(s[|s| - 1]) then Trim(s[..|s| - 1])
    else s
  }

  /** What trimming leaves is a piece of the original text. */
  lemma {:induction false} TrimInfix(s: string)
    ensures exists i :: OccursAt(s, Trim(s), i)
  {
    var t := Trim(s);
    if s != [] && IsSpace(s[0]) {
      TrimInfix(s[1..]);
      assert t == Trim(s[1..]);
      var i :| OccursAt(s[1..], t, i);
      assert s[1..][i..i + |t|] == s[i + 1..i + 1 + |t|];
      assert OccursAt(s, t, i + 1);
    } else if s != [] && IsSpace(s[|s| - 1]) {
      TrimInfix(s[..|s| - 1]);
      assert t == Trim(s[..|s| - 1]);
      var i :| OccursAt(s[..|s| - 1], t, i);
      assert s[..|s| - 1][i..i + |t|] == s[i..i + |t|];
      assert OccursAt(s, t, i);
    } else {
      assert s[0..|s|] == s;
      assert OccursAt(s, t, 0);
    }
  }

  /** Trimming twice is trimming once: stored trimmed texts are fixed points of the setter. */
  lemma TrimIdempotent(s: string)
    ensures Trim(Trim(s)) == Trim(s)
  {
    RecortadoTrim(Trim(s));
  }

  /** A stored required text: not empty, with no white space at either end. */
  predicate Recortado(s: string)
  {
    s != [] && !IsSpace(s[0]) && !IsSpace(s[|s| - 1])
  }

  /** The stored form is exactly the non-empty fixed points of trimming. */
  lemma RecortadoTrim(s: string)
    ensures Recortado(s) <==> s != [] && Trim(s) == s
    ensures Trim(s) != [] ==> Recortado(Trim(s))
  {
  }
  /**
   * `s.length` and a Mongoose `minlength`: the number of UTF-16 code units, where a
   * character above U+FFFF is a surrogate pair and counts twice.
   */
  function Utf16Length(s: string): (n: nat)
    ensures |s| <= n <= 2 * |s|
    ensures n == |s| <==> forall i :: 0 <= i < |s| ==> s[i] as int < 0x1_0000
  {
    if s == [] then 0
    else Utf16Length(s[..|s| - 1]) + (if s[|s| - 1] as int < 0x1_0000 then 1 else 2)
  }

  /** The length of a concatenation is the sum of the lengths. */
  lemma {:induction false} Utf16LengthConcat(a: string, b: string)
    ensures Utf16Length(a + b) == Utf16Length(a) + Utf16Length(b)
    decreases |b|
  {
    if b != [] {
      assert (a + b)[..|a + b| - 1] == a + b[..|b| - 1];
      Utf16LengthConcat(a, b[..|b| - 1]);
    } else {
      assert a + b == a;
    }
  }

  /** Three emoji are three characters of the model but six code units, so `length` is 6. */
  lemma TresEmojis()
    ensures |"\U{1F600}\U{1F600}\U{1F600}"| == 3 && Utf16Length("\U{1F600}\U{1F600}\U{1F600}") == 6
  {
  }
}
