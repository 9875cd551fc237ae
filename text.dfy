/** The two string checks of backend-example.js: the e-mail pattern
    /^[^\s@]+@[^\s@]+\.[^\s@]+$/ used by signup, and the bearer-token
    extraction `authHeader && authHeader.split(' ')[1]` of the auth gate. */
module Text {
  import opened Wrappers
  import Seqs

  /** JavaScript's `\s`: the ECMAScript WhiteSpace and LineTerminator
      code points. */
  predicate IsSpace(c: char) {
    var n := c as int;
    (9 <= n <= 13) || n == 32 || n == 0xA0 || n == 0x1680 ||
    (0x2000 <= n <= 0x200A) || n == 0x2028 || n == 0x2029 ||
    n == 0x202F || n == 0x205F || n == 0x3000 || n == 0xFEFF
  }

  /** The character class `[^\s@]`. */
  predicate IsAtom(c: char) {
    !IsSpace(c) && c != '@'
  }

  predicate IsAt(c: char) {
    c == '@'
  }

  predicate AllAtoms(s: string) {
    forall i :: 0 <= i < |s| ==> IsAtom(s[i])
  }

  /** The language of the pattern, read off its structure: a non-empty run
      of atoms, '@', a non-empty run, '.', a non-empty run, and nothing else. */
  ghost predicate MatchesEmailPattern(s: string) {
    exists at, dot ::
      0 < at && at + 1 < dot < |s| - 1 &&
      s[at] == '@' && s[dot] == '.' &&
      AllAtoms(s[..at]) && AllAtoms(s[at + 1..dot]) && AllAtoms(s[dot + 1..])
  }

  /** The domain part after the '@': atoms only, with a '.' that is neither
      its first nor its last character. */
  predicate IsDomain(d: string) {
    AllAtoms(d) && exists k | 1 <= k < |d| - 1 :: d[k] == '.'
  }

  /** The executable form of `emailRegex.test(email)`: split at the first
      '@' and check both sides. */
  predicate IsValidEmail(s: string) {
    var at := Seqs.FindIndex(s, IsAt);
    0 < at && AllAtoms(s[..at]) && IsDomain(s[at + 1..])
  }

  /** Everything the check accepts, the pattern matches. */
  lemma EmailCheckSound(s: string)
    requires IsValidEmail(s)
    ensures MatchesEmailPattern(s)
  {
    var at := Seqs.FindIndex(s, IsAt);
    var d := s[at + 1..];
    var k :| 1 <= k < |d| - 1 && d[k] == '.';
    var dot := at + 1 + k;
    assert s[at + 1..dot] == d[..k];
    assert s[dot + 1..] == d[k + 1..];
    assert s[dot] == d[k];
  }

  /** The first '@' of `s` is at position `at` when nothing before it is
      an '@'. */
  lemma FirstAt(s: string, at: int)
    requires 0 <= at < |s| && s[at] == '@' && AllAtoms(s[..at])
    ensures Seqs.FindIndex(s, IsAt) == at
  {
    forall i | 0 <= i < at ensures !IsAt(s[i]) {
      assert IsAtom(s[..at][i]);
    }
    assert IsAt(s[at]);
  }

  /** Two runs of atoms around a '.' make a domain. */
  lemma DomainOfParts(left: string, right: string)
    requires left != [] && right != [] && AllAtoms(left) && AllAtoms(right)
    ensures IsDomain(left + ['.'] + right)
  {
    var d := left + ['.'] + right;
    forall i | 0 <= i < |d| ensures IsAtom(d[i]) {
      if i < |left| {
        assert d[i] == left[i];
      } else if i > |left| {
        assert d[i] == right[i - |left| - 1];
      }
    }
    assert d[|left|] == '.';
  }

  /** A witness of the pattern passes the check. */
  lemma CheckOfWitness(s: string, at: int, dot: int)
    requires 0 < at && at + 1 < dot < |s| - 1 && s[at] == '@' && s[dot] == '.'
    requires AllAtoms(s[..at]) && AllAtoms(s[at + 1..dot]) && AllAtoms(s[dot + 1..])
    ensures IsValidEmail(s)
  {
    FirstAt(s, at);
    assert s[at + 1..] == s[at + 1..dot] + ['.'] + s[dot + 1..];
    DomainOfParts(s[at + 1..dot], s[dot + 1..]);
  }

  /** Everything the pattern matches, the check accepts. */
  lemma EmailCheckComplete(s: string)
    requires MatchesEmailPattern(s)
    ensures IsValidEmail(s)
  {
    var at, dot :| 0 < at && at + 1 < dot < |s| - 1 &&
      s[at] == '@' && s[dot] == '.' &&
      AllAtoms(s[..at]) && AllAtoms(s[at + 1..dot]) && AllAtoms(s[dot + 1..]);
    CheckOfWitness(s, at, dot);
  }

  /** The check accepts exactly the strings the pattern matches. */
  lemma EmailCheckMatchesPattern(s: string)
    ensures IsValidEmail(s) <==> MatchesEmailPattern(s)
  {
    if IsValidEmail(s) {
      EmailCheckSound(s);
    }
    if MatchesEmailPattern(s) {
      EmailCheckComplete(s);
    }
  }

  /** What the check demands, stated without the pattern: no white space,
      exactly one '@', a non-empty part before it, and a '.' after it that
      is neither the first nor the last character of the domain. */
  lemma {:induction false} ValidEmailShape(s: string)
    requires IsValidEmail(s)
    ensures forall i :: 0 <= i < |s| ==> !IsSpace(s[i])
    ensures exists at :: (0 < at < |s| && s[at] == '@' &&
      (forall i :: 0 <= i < |s| && i != at ==> s[i] != '@') &&
      (exists k :: at + 1 < k < |s| - 1 && s[k] == '.'))
  {
    var at := Seqs.FindIndex(s, IsAt);
    var d := s[at + 1..];
    forall i | 0 <= i < |s| ensures IsAtom(s[i]) || i == at {
      if i < at {
        assert s[i] == s[..at][i];
      } else if i > at {
        assert s[i] == d[i - at - 1];
      }
    }
    var k :| 1 <= k < |d| - 1 && d[k] == '.';
    assert s[at + 1 + k] == '.';
  }

  /** Conversely, a string of that shape passes the check: together with
      ValidEmailShape, the check accepts exactly those strings. */
  lemma ShapeIsValidEmail(s: string, at: int, dot: int)
    requires forall i :: 0 <= i < |s| ==> !IsSpace(s[i])
    requires 0 < at < |s| && s[at] == '@'
    requires forall i :: 0 <= i < |s| && i != at ==> s[i] != '@'
    requires at + 1 < dot < |s| - 1 && s[dot] == '.'
    ensures IsValidEmail(s)
  {
    forall i | 0 <= i < |s| && i != at ensures IsAtom(s[i]) {
    }
    var local, left, right := s[..at], s[at + 1..dot], s[dot + 1..];
    assert AllAtoms(local) by {
      forall i | 0 <= i < |local| ensures IsAtom(local[i]) {
        assert local[i] == s[i];
      }
    }
    assert AllAtoms(left) by {
      forall i | 0 <= i < |left| ensures IsAtom(left[i]) {
        assert left[i] == s[at + 1 + i];
      }
    }
    assert AllAtoms(right) by {
      forall i | 0 <= i < |right| ensures IsAtom(right[i]) {
        assert right[i] == s[dot + 1 + i];
      }
    }
    CheckOfWitness(s, at, dot);
  }

  /** A string that the check accepts. */
  lemma EmailExamples()
    ensures IsValidEmail("a@b.com")
  {
    FirstAt("a@b.com", 1);
    assert "a@b.com"[2..] == "b.com";
    DomainOfParts("b", "com");
    assert "b" + ['.'] + "com" == "b.com";
  }

  /** Three strings the check refuses: an empty top-level part, an empty
      local part, and a space. */
  lemma EmailCounterexamples()
    ensures !IsValidEmail("a@b.")
    ensures !IsValidEmail("@b.com")
    ensures !IsValidEmail("a b@c.com")
  {
    assert !IsValidEmail("a@b.") by {
      FirstAt("a@b.", 1);
      assert |"a@b."[2..]| == 2;
    }
    assert !IsValidEmail("@b.com") by {
      assert IsAt("@b.com"[0]);
    }
    assert !IsAtom("a b@c.com"[..3][1]);
  }

  /** String.prototype.split(' '): the pieces between single spaces; an
      empty string gives one empty piece, and adjacent spaces give empty
      pieces. */
  function Split(s: string): (r: seq<string>)
    ensures |r| >= 1
    ensures forall i :: 0 <= i < |r| ==> ' ' !in r[i]
  {
    if s == [] then [""]
    else
      var rest := Split(s[1..]);
      if s[0] == ' ' then [""] + rest else [[s[0]] + rest[0]] + rest[1..]
  }

  /** Array.prototype.join(' '), the inverse of Split. */
  function Join(parts: seq<string>): string
    requires |parts| >= 1
  {
    if |parts| == 1 then parts[0] else parts[0] + " " + Join(parts[1..])
  }

  /** Splitting loses nothing: joining the pieces with spaces gives the
      string back. */
  lemma {:induction false} JoinSplit(s: string)
    ensures Join(Split(s)) == s
    decreases |s|
  {
    if s != [] {
      JoinSplit(s[1..]);
      var rest := Split(s[1..]);
      if s[0] == ' ' {
        assert ([""] + rest)[1..] == rest;
      } else {
        var r := [[s[0]] + rest[0]] + rest[1..];
        if |rest| == 1 {
          assert Join(r) == [s[0]] + rest[0];
        } else {
          assert r[1..] == rest[1..];
          assert Join(r) == [s[0]] + (rest[0] + " " + Join(rest[1..]));
        }
      }
    }
  }

  /** A string without spaces is a single piece. */
  lemma {:induction false} SplitWord(w: string)
    requires ' ' !in w
    ensures Split(w) == [w]
    decreases |w|
  {
    if w != [] {
      assert ' ' !in w[1..] by {
        forall i | 0 <= i < |w[1..]| ensures w[1..][i] != ' ' {
          assert w[1..][i] == w[i + 1];
        }
      }
      SplitWord(w[1..]);
      assert [w[0]] + w[1..] == w;
    }
  }

  /** A space after a word splits off exactly that word. */
  lemma {:induction false} SplitAfterWord(w: string, rest: string)
    requires ' ' !in w
    ensures Split(w + " " + rest) == [w] + Split(rest)
    decreases |w|
  {
    if w == [] {
      assert w + " " + rest == [' '] + rest;
      assert (w + " " + rest)[1..] == rest;
    } else {
      assert ' ' !in w[1..] by {
        forall i | 0 <= i < |w[1..]| ensures w[1..][i] != ' ' {
          assert w[1..][i] == w[i + 1];
        }
      }
      SplitAfterWord(w[1..], rest);
      assert (w + " " + rest)[1..] == w[1..] + " " + rest;
      assert [w[0]] + w[1..] == w;
    }
  }

  /** The token of the Authorization header: its second space-separated
      piece. A missing header, a header without a space, or an empty second
      piece gives no token (JavaScript treats '' and undefined as false). */
  function BearerToken(header: Option<string>): (t: Option<string>)
    ensures t.Some? ==> t.value != "" && ' ' !in t.value
    ensures header.None? || header == Some("") ==> t.None?
  {
    match header
    case None => None
    case Some(h) =>
      if h == "" then None
      else
        var pieces := Split(h);
        if |pieces| >= 2 && pieces[1] != "" then Some(pieces[1]) else None
  }

  /** "Bearer <token>", possibly followed by a space and more text, yields
      the token, whatever the first word is (the scheme name is never
      compared). */
  lemma BearerTokenOfScheme(scheme: string, token: string, tail: string)
    requires ' ' !in scheme && ' ' !in token && token != ""
    requires tail == "" || tail[0] == ' '
    ensures BearerToken(Some(scheme + " " + token + tail)) == Some(token)
  {
    if tail == "" {
      assert scheme + " " + token + tail == scheme + " " + token;
      SplitAfterWord(scheme, token);
      SplitWord(token);
    } else {
      var more := tail[1..];
      assert tail == " " + more;
      assert scheme + " " + token + tail == scheme + " " + (token + " " + more);
      SplitAfterWord(scheme, token + " " + more);
      SplitAfterWord(token, more);
    }
  }

  /** Conversely, a token is always the text between the first and the
      second space of the header. */
  lemma BearerTokenSource(h: string, token: string)
    requires BearerToken(Some(h)) == Some(token)
    ensures exists scheme, tail ::
      ' ' !in scheme && (tail == "" || tail[0] == ' ') &&
      h == scheme + " " + token + tail
  {
    var pieces := Split(h);
    JoinSplit(h);
    if |pieces| == 2 {
      assert Join(pieces[1..]) == token;
      assert h == pieces[0] + " " + token + "";
    } else {
      assert pieces[1..][1..] == pieces[2..];
      var rest := Join(pieces[2..]);
      assert Join(pieces[1..]) == token + " " + rest;
      var tail := " " + rest;
      assert h == pieces[0] + " " + (token + " " + rest);
      assert pieces[0] + " " + (token + " " + rest) == pieces[0] + " " + token + tail;
      assert ' ' !in pieces[0] && tail[0] == ' ';
    }
  }
}
