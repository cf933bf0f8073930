/** The console (components/netzap-interface.tsx): it reads the target subnet,
    the port and the scan type back out of the command line shown to the user,
    posts them to the scan API and tracks the outcome. */
module NetzapInterface {
  import opened Common
  import ScanConfiguration

  // ---------------------------------------------------------------------------
  // Character runs

  /** The characters `.` does not match. */
  predicate IsLineTerminator(c: char) {
    c == '\n' || c == '\r' || c == '\U{2028}' || c == '\U{2029}'
  }

  /** `[0-9\.]` */
  predicate IsDotDigit(c: char) {
    IsDigit(c) || c == '.'
  }

  /** The length of the white-space run at `i`: what a greedy `\s+` takes. */
  function WsRun(s: string, i: nat): (n: nat)
    requires i <= |s|
    ensures i + n <= |s|
    decreases |s| - i
  {
    if i < |s| && IsWs(s[i]) then 1 + WsRun(s, i + 1) else 0
  }

  /** The length of the `[0-9\.]` run at `i`. */
  function DotDigitRun(s: string, i: nat): (n: nat)
    requires i <= |s|
    ensures i + n <= |s|
    decreases |s| - i
  {
    if i < |s| && IsDotDigit(s[i]) then 1 + DotDigitRun(s, i + 1) else 0
  }

  /** The length of the `[0-9]` run at `i`. */
  function DigitRun(s: string, i: nat): (n: nat)
    requires i <= |s|
    ensures i + n <= |s|
    decreases |s| - i
  {
    if i < |s| && IsDigit(s[i]) then 1 + DigitRun(s, i + 1) else 0
  }

  // ---------------------------------------------------------------------------
  // The subnet: /zmap\s+.*?\s+([0-9\.]+\/[0-9]+)(\s|$)/

  /** `([0-9\.]+\/[0-9]+)(\s|$)` at `g`: where the captured token ends, if it
      matches there.  Both runs are greedy, and giving back a character can only
      put a `[0-9\.]` before the `/` or a digit before the `(\s|$)`, so the
      token at `g` is unique. */
  function TokenAt(s: string, g: nat): (e: Option<nat>)
    requires g <= |s|
    ensures e.Some? ==> g < e.value <= |s|
  {
    var d := DotDigitRun(s, g);
    if d == 0 || g + d >= |s| || s[g + d] != '/' then None
    else
      var n := DigitRun(s, g + d + 1);
      var e := g + d + 1 + n;
      if n == 0 then None
      else if e == |s| || IsWs(s[e]) then Some(e)
      else None
  }

  /** The lazy `.*?\s+` then the token, from `r` on: `.*?` stops at the first
      place where a white-space run starts and a token follows it, and it cannot
      pass a line terminator.  The span of the captured token, if any. */
  function LaterToken(s: string, r: nat): (span: Option<(nat, nat)>)
    requires r <= |s|
    ensures span.Some? ==> r < span.value.0 < span.value.1 <= |s|
    decreases |s| - r
  {
    if r == |s| then None
    else
      var g := r + WsRun(s, r);
      var here := if IsWs(s[r]) then TokenAt(s, g) else None;
      if here.Some? then Some((g, here.value))
      else if IsLineTerminator(s[r]) then None
      else LaterToken(s, r + 1)
  }

  /** The match that starts with the `zmap` at `p`, as the regex backtracks: the
      first `\s+` takes the whole run after `zmap` and the lazy part searches
      from its end; when nothing follows, the first `\s+` gives back characters
      and the token may then start right after the run, but only when the run
      is at least two characters long, so that `.*?\s+` keeps one. */
  function MatchAt(s: string, p: nat, tokenMayLead: bool): (span: Option<(nat, nat)>)
    requires p + 4 <= |s|
    ensures span.Some? ==> p + 4 < span.value.0 < span.value.1 <= |s|
  {
    var k := WsRun(s, p + 4);
    var q := p + 4 + k;
    if k == 0 then None
    else
      match LaterToken(s, q)
      case Some(span) => Some(span)
      case None =>
        if (k >= 2 || tokenMayLead) && TokenAt(s, q).Some? then Some((q, TokenAt(s, q).value)) else None
  }

  /** The leftmost match at or after `p`, as `String.prototype.match` finds it. */
  function SubnetFrom(s: string, p: nat, tokenMayLead: bool): (r: Option<string>)
    decreases |s| - p
  {
    if p + 4 > |s| then None
    else if s[p..p + 4] == "zmap" && MatchAt(s, p, tokenMayLead).Some? then
      var span := MatchAt(s, p, tokenMayLead).value;
      Some(s[span.0..span.1])
    else SubnetFrom(s, p + 1, tokenMayLead)
  }

  /** The subnet as the console reads it (lines 51-52). */
  function FindSubnet(command: string): Option<string> {
    SubnetFrom(command, 0, false)
  }

  /** The subnet as the console evidently means to read it: the token may also
      be the first one after `zmap`, as in /zmap\s+(?:.*?\s+)?([0-9\.]+\/[0-9]+)(\s|$)/. */
  function FindSubnetCorrected(command: string): Option<string> {
    SubnetFrom(command, 0, true)
  }

  // ---------------------------------------------------------------------------
  // What the subnet search finds

  lemma {:induction false} WsRunShape(s: string, i: nat)
    requires i <= |s|
    ensures forall k :: i <= k < i + WsRun(s, i) ==> IsWs(s[k])
    ensures i + WsRun(s, i) == |s| || !IsWs(s[i + WsRun(s, i)])
    decreases |s| - i
  {
    if i < |s| && IsWs(s[i]) {
      WsRunShape(s, i + 1);
    }
  }

  lemma {:induction false} DotDigitRunShape(s: string, i: nat)
    requires i <= |s|
    ensures forall k :: i <= k < i + DotDigitRun(s, i) ==> IsDotDigit(s[k])
    decreases |s| - i
  {
    if i < |s| && IsDotDigit(s[i]) {
      DotDigitRunShape(s, i + 1);
    }
  }

  lemma {:induction false} DigitRunShape(s: string, i: nat)
    requires i <= |s|
    ensures forall k :: i <= k < i + DigitRun(s, i) ==> IsDigit(s[k])
    decreases |s| - i
  {
    if i < |s| && IsDigit(s[i]) {
      DigitRunShape(s, i + 1);
    }
  }

  /** `[0-9\.]+\/[0-9]+` */
  predicate CidrShaped(t: string) {
    exists i :: 0 < i < |t| - 1 && t[i] == '/' && DotDigitsUpTo(t, i) && DigitsAfter(t, i)
  }

  predicate DotDigitsUpTo(t: string, i: nat)
    requires i <= |t|
  {
    forall k :: 0 <= k < i ==> IsDotDigit(t[k])
  }

  predicate DigitsAfter(t: string, i: nat)
    requires i < |t|
  {
    forall k :: i < k < |t| ==> IsDigit(t[k])
  }

  /** A token that matches at `g` has the CIDR shape and is followed by white
      space or the end of the text. */
  lemma TokenShape(s: string, g: nat)
    requires g <= |s| && TokenAt(s, g).Some?
    ensures CidrShaped(s[g..TokenAt(s, g).value])
    ensures TokenAt(s, g).value == |s| || IsWs(s[TokenAt(s, g).value])
  {
    var e := TokenAt(s, g).value;
    var d := DotDigitRun(s, g);
    DotDigitRunShape(s, g);
    DigitRunShape(s, g + d + 1);
    var t := s[g..e];
    assert t[d] == '/';
    assert DotDigitsUpTo(t, d);
    assert DigitsAfter(t, d);
  }

  /** The captured token starts right after white space. */
  predicate TokenSpan(s: string, g: nat, e: nat) {
    0 < g <= |s| && IsWs(s[g - 1]) && TokenAt(s, g) == Some(e)
  }

  lemma {:induction false} LaterTokenSpan(s: string, r: nat)
    requires r <= |s| && LaterToken(s, r).Some?
    ensures TokenSpan(s, LaterToken(s, r).value.0, LaterToken(s, r).value.1)
    decreases |s| - r
  {
    var g := r + WsRun(s, r);
    if IsWs(s[r]) && TokenAt(s, g).Some? {
      WsRunShape(s, r);
    } else {
      LaterTokenSpan(s, r + 1);
    }
  }

  lemma MatchAtSpan(s: string, p: nat, tokenMayLead: bool)
    requires p + 4 <= |s| && MatchAt(s, p, tokenMayLead).Some?
    ensures TokenSpan(s, MatchAt(s, p, tokenMayLead).value.0, MatchAt(s, p, tokenMayLead).value.1)
  {
    if LaterToken(s, p + 4 + WsRun(s, p + 4)).Some? {
      LaterTokenSpan(s, p + 4 + WsRun(s, p + 4));
    } else {
      WsRunShape(s, p + 4);
    }
  }

  /** Whatever the search returns, in either form, is a CIDR-shaped token of
      the command with white space before it and white space or the end of
      the command after it. */
  lemma {:induction false} SubnetIsToken(s: string, p: nat, tokenMayLead: bool)
    requires SubnetFrom(s, p, tokenMayLead).Some?
    ensures var t := SubnetFrom(s, p, tokenMayLead).value;
      && CidrShaped(t)
      && exists g: nat, e: nat :: TokenSpan(s, g, e) && t == s[g..e]
    decreases |s| - p
  {
    if s[p..p + 4] == "zmap" && MatchAt(s, p, tokenMayLead).Some? {
      var span := MatchAt(s, p, tokenMayLead).value;
      MatchAtSpan(s, p, tokenMayLead);
      TokenShape(s, span.0);
    } else {
      SubnetIsToken(s, p + 1, tokenMayLead);
    }
  }

  /** Runs of the three kinds over a stretch that ends where the kind stops. */
  lemma {:induction false} DotDigitRunOver(s: string, i: nat, m: nat)
    requires i + m <= |s| && forall k :: i <= k < i + m ==> IsDotDigit(s[k])
    requires i + m == |s| || !IsDotDigit(s[i + m])
    ensures DotDigitRun(s, i) == m
    decreases m
  {
    if m > 0 {
      DotDigitRunOver(s, i + 1, m - 1);
    }
  }

  lemma {:induction false} DigitRunOver(s: string, i: nat, m: nat)
    requires i + m <= |s| && forall k :: i <= k < i + m ==> IsDigit(s[k])
    requires i + m == |s| || !IsDigit(s[i + m])
    ensures DigitRun(s, i) == m
    decreases m
  {
    if m > 0 {
      DigitRunOver(s, i + 1, m - 1);
    }
  }

  /** A CIDR token `d/n` written at `g` and followed by white space or the end. */
  lemma TokenAtCidr(s: string, g: nat, d: string, n: string)
    requires d != [] && (forall k :: 0 <= k < |d| ==> IsDotDigit(d[k]))
    requires n != [] && AllDigits(n)
    requires g + |d| + 1 + |n| <= |s| && s[g..g + |d| + 1 + |n|] == d + "/" + n
    requires g + |d| + 1 + |n| == |s| || IsWs(s[g + |d| + 1 + |n|])
    ensures TokenAt(s, g) == Some(g + |d| + 1 + |n|)
  {
    var e := g + |d| + 1 + |n|;
    assert forall k :: g <= k < g + |d| ==> s[k] == d[k - g] by {
      forall k | g <= k < g + |d| ensures s[k] == d[k - g] {
        assert s[k] == s[g..e][k - g];
      }
    }
    assert s[g + |d|] == s[g..e][|d|] == '/';
    DotDigitRunOver(s, g, |d|);
    assert forall k :: g + |d| + 1 <= k < e ==> s[k] == n[k - g - |d| - 1] by {
      forall k | g + |d| + 1 <= k < e ensures s[k] == n[k - g - |d| - 1] {
        assert s[k] == s[g..e][k - g];
      }
    }
    assert e == |s| || !IsDigit(s[e]);
    DigitRunOver(s, g + |d| + 1, |n|);
  }

  /** The lazy part passes over a stretch without white space or line terminators. */
  lemma {:induction false} LaterTokenSkips(s: string, r: nat, e: nat)
    requires r <= e <= |s|
    requires forall k :: r <= k < e ==> !IsWs(s[k]) && !IsLineTerminator(s[k])
    ensures LaterToken(s, r) == LaterToken(s, e)
    decreases e - r
  {
    if r < e {
      LaterTokenSkips(s, r + 1, e);
    }
  }

  /** With no `z` after the first character, no match starts after it. */
  lemma {:induction false} NoLaterZmap(s: string, p: nat, tokenMayLead: bool)
    requires p >= 1 && forall k :: 1 <= k < |s| ==> s[k] != 'z'
    ensures SubnetFrom(s, p, tokenMayLead) == None
    decreases |s| - p
  {
    if p + 4 <= |s| {
      assert s[p..p + 4][0] == s[p];
      NoLaterZmap(s, p + 1, tokenMayLead);
    }
  }

  predicate IsWord(w: string) {
    forall k :: 0 <= k < |w| ==> !IsWs(w[k]) && !IsLineTerminator(w[k])
  }

  /** A subnet after one other word is found: `zmap -p 10.0.0.0/8`. */
  lemma SubnetAfterWord(w: string, d: string, n: string)
    requires w != [] && IsWord(w)
    requires d != [] && (forall k :: 0 <= k < |d| ==> IsDotDigit(d[k]))
    requires n != [] && AllDigits(n)
    ensures FindSubnet("zmap " + w + " " + d + "/" + n) == Some(d + "/" + n)
    ensures FindSubnetCorrected("zmap " + w + " " + d + "/" + n) == Some(d + "/" + n)
  {
    var t := d + "/" + n;
    assert t[0] == d[0];
    WordThenToken(w, t, d, n, false);
    WordThenToken(w, t, d, n, true);
    Regroup("zmap " + w + " ", d, "/", n);
  }

  lemma WordThenToken(w: string, t: string, d: string, n: string, tokenMayLead: bool)
    requires w != [] && IsWord(w)
    requires d != [] && (forall k :: 0 <= k < |d| ==> IsDotDigit(d[k]))
    requires n != [] && AllDigits(n)
    requires t == d + "/" + n && t[0] == d[0]
    ensures SubnetFrom("zmap " + w + " " + t, 0, tokenMayLead) == Some(t)
  {
    var s := "zmap " + w + " " + t;
    AfterWordShape(w, t);
    var r := 5 + |w|;
    TokenAtCidr(s, r + 1, d, n);
    MatchAfterWord(s, r, tokenMayLead);
  }

  /** Where the parts of `zmap <w> <t>` sit. */
  lemma AfterWordShape(w: string, t: string)
    requires w != [] && IsWord(w) && t != []
    ensures var s := "zmap " + w + " " + t;
      && s[..4] == "zmap" && s[4] == ' ' && s[5 + |w|] == ' ' && s[6 + |w|..] == t
      && forall k :: 5 <= k < 5 + |w| ==> !IsWs(s[k]) && !IsLineTerminator(s[k])
  {
    var s := "zmap " + w + " " + t;
    forall k | 5 <= k < 5 + |w| ensures !IsWs(s[k]) && !IsLineTerminator(s[k]) {
      assert s[k] == w[k - 5];
    }
  }

  /** A match whose second word, after one space, is the whole rest of the line. */
  lemma MatchAfterWord(s: string, r: nat, tokenMayLead: bool)
    requires 5 < r < |s| - 1 && s[..4] == "zmap" && s[4] == ' ' && s[r] == ' '
    requires forall k :: 5 <= k < r ==> !IsWs(s[k]) && !IsLineTerminator(s[k])
    requires !IsWs(s[r + 1]) && TokenAt(s, r + 1) == Some(|s|)
    ensures SubnetFrom(s, 0, tokenMayLead) == Some(s[r + 1..])
  {
    assert !IsWs(s[5]) && IsWs(s[4]);
    assert WsRun(s, 5) == 0;
    assert WsRun(s, 4) == 1;
    assert WsRun(s, r + 1) == 0;
    assert WsRun(s, r) == 1;
    LaterTokenSkips(s, 5, r);
    assert LaterToken(s, r) == Some((r + 1, |s|));
    assert MatchAt(s, 0, tokenMayLead) == Some((r + 1, |s|));
    assert s[0..4] == "zmap";
    var span := MatchAt(s, 0, tokenMayLead).value;
    assert SubnetFrom(s, 0, tokenMayLead) == Some(s[span.0..span.1]);
    assert span == (r + 1, |s|);
    assert s[span.0..span.1] == s[r + 1..];
  }

  /** Words that hold no `/` and no line terminator, without white space at
      either end. */
  predicate IsWords(m: string) {
    && m != [] && !IsWs(m[0]) && !IsWs(m[|m| - 1])
    && forall k :: 0 <= k < |m| ==> !IsLineTerminator(m[k]) && m[k] != '/'
  }

  /** No token starts where no `/` comes before the next white space. */
  lemma NoTokenBefore(s: string, g: nat, e: nat)
    requires g <= e < |s| && IsWs(s[e])
    requires forall k :: g <= k < e ==> s[k] != '/'
    ensures TokenAt(s, g) == None
  {
    DotDigitRunShape(s, g);
  }

  /** The lazy part passes over words without `/`: none of them starts a token. */
  lemma {:induction false} LaterTokenPasses(s: string, r: nat, e: nat)
    requires r <= e < |s| && IsWs(s[e])
    requires forall k :: r <= k < e ==> !IsLineTerminator(s[k]) && s[k] != '/'
    requires r < e ==> !IsWs(s[e - 1])
    ensures LaterToken(s, r) == LaterToken(s, e)
    decreases e - r
  {
    if r < e {
      if IsWs(s[r]) {
        WsRunShape(s, r);
        var g := r + WsRun(s, r);
        assert g < e;
        NoTokenBefore(s, g, e);
      }
      LaterTokenPasses(s, r + 1, e);
    }
  }

  /** A match whose token, after one space, ends the line and follows words
      without `/`. */
  lemma MatchAfterWords(s: string, e: nat, tokenMayLead: bool)
    requires 5 < e < |s| - 1 && s[..4] == "zmap" && s[4] == ' ' && !IsWs(s[5])
    requires s[e] == ' ' && !IsWs(s[e - 1])
    requires forall k :: 5 <= k < e ==> !IsLineTerminator(s[k]) && s[k] != '/'
    requires !IsWs(s[e + 1]) && TokenAt(s, e + 1) == Some(|s|)
    ensures SubnetFrom(s, 0, tokenMayLead) == Some(s[e + 1..])
  {
    assert WsRun(s, 5) == 0;
    assert WsRun(s, 4) == 1;
    assert WsRun(s, e + 1) == 0;
    assert WsRun(s, e) == 1;
    LaterTokenPasses(s, 5, e);
    assert LaterToken(s, e) == Some((e + 1, |s|));
    assert MatchAt(s, 0, tokenMayLead) == Some((e + 1, |s|));
    assert s[0..4] == "zmap";
    var span := MatchAt(s, 0, tokenMayLead).value;
    assert SubnetFrom(s, 0, tokenMayLead) == Some(s[span.0..span.1]);
    assert span == (e + 1, |s|);
    assert s[span.0..span.1] == s[e + 1..];
  }

  /** Where the parts of `zmap <m> <t>` sit. */
  lemma AfterWordsShape(m: string, t: string)
    requires IsWords(m) && t != []
    ensures var s := "zmap " + m + " " + t;
      && s[..4] == "zmap" && s[4] == ' ' && s[5] == m[0] && s[5 + |m|] == ' ' && s[4 + |m|] == m[|m| - 1]
      && s[6 + |m|..] == t
      && forall k :: 5 <= k < 5 + |m| ==> !IsLineTerminator(s[k]) && s[k] != '/'
  {
    var s := "zmap " + m + " " + t;
    forall k | 5 <= k < 5 + |m| ensures !IsLineTerminator(s[k]) && s[k] != '/' {
      assert s[k] == m[k - 5];
    }
  }

  lemma WordsThenToken(m: string, t: string, d: string, n: string, tokenMayLead: bool)
    requires IsWords(m)
    requires d != [] && (forall k :: 0 <= k < |d| ==> IsDotDigit(d[k]))
    requires n != [] && AllDigits(n)
    requires t == d + "/" + n && t[0] == d[0]
    ensures SubnetFrom("zmap " + m + " " + t, 0, tokenMayLead) == Some(t)
  {
    var s := "zmap " + m + " " + t;
    AfterWordsShape(m, t);
    var e := 5 + |m|;
    TokenAtCidr(s, e + 1, d, n);
    MatchAfterWords(s, e, tokenMayLead);
  }

  /** A subnet after any words that hold no `/` is found, by either search:
      `zmap -p 80 -M udp 10.0.0.0/8`. */
  lemma SubnetAfterWords(m: string, d: string, n: string)
    requires IsWords(m)
    requires d != [] && (forall k :: 0 <= k < |d| ==> IsDotDigit(d[k]))
    requires n != [] && AllDigits(n)
    ensures FindSubnet("zmap " + m + " " + d + "/" + n) == Some(d + "/" + n)
    ensures FindSubnetCorrected("zmap " + m + " " + d + "/" + n) == Some(d + "/" + n)
  {
    var t := d + "/" + n;
    assert t[0] == d[0];
    WordsThenToken(m, t, d, n, false);
    WordsThenToken(m, t, d, n, true);
    Regroup("zmap " + m + " ", d, "/", n);
  }

  /** The subnet as the only word after `zmap` is not found... */
  lemma SubnetAloneIsMissed(d: string, n: string)
    requires d != [] && (forall k :: 0 <= k < |d| ==> IsDotDigit(d[k]))
    requires n != [] && AllDigits(n)
    ensures FindSubnet("zmap " + d + "/" + n) == None
  {
    var t := d + "/" + n;
    var s := "zmap " + t;
    assert s == "zmap " + d + "/" + n;
    assert s[..4] == "zmap";
    AloneFacts(d, n);
    LaterTokenSkips(s, 5, |s|);
    assert WsRun(s, 4) == 1;
    NoLaterZmap(s, 1, false);
  }

  /** ...though the corrected search finds it. */
  lemma SubnetAloneIsFound(d: string, n: string)
    requires d != [] && (forall k :: 0 <= k < |d| ==> IsDotDigit(d[k]))
    requires n != [] && AllDigits(n)
    ensures FindSubnetCorrected("zmap " + d + "/" + n) == Some(d + "/" + n)
  {
    var t := d + "/" + n;
    var s := "zmap " + t;
    assert s == "zmap " + d + "/" + n;
    assert s[..4] == "zmap";
    AloneFacts(d, n);
    LaterTokenSkips(s, 5, |s|);
    assert WsRun(s, 4) == 1;
    assert s[5..] == t;
    TokenAtCidr(s, 5, d, n);
  }

  lemma AloneFacts(d: string, n: string)
    requires d != [] && (forall k :: 0 <= k < |d| ==> IsDotDigit(d[k]))
    requires n != [] && AllDigits(n)
    ensures var s := "zmap " + d + "/" + n;
      && (forall k :: 5 <= k < |s| ==> !IsWs(s[k]) && !IsLineTerminator(s[k]))
      && (forall k :: 1 <= k < |s| ==> s[k] != 'z')
      && s[4] == ' ' && !IsWs(s[5])
  {
    var s := "zmap " + d + "/" + n;
    forall k | 5 <= k < |s| ensures !IsWs(s[k]) && !IsLineTerminator(s[k]) && s[k] != 'z' {
      if k < 5 + |d| {
        assert s[k] == d[k - 5];
      } else if k > 5 + |d| {
        assert s[k] == n[k - 6 - |d|];
      }
    }
  }

  // ---------------------------------------------------------------------------
  // The port: /-p\s+([0-9]+)/, "80" when there is none

  /** `-p\s+[0-9]+` matches at `p`. */
  predicate PortAt(s: string, p: nat)
    requires p + 2 <= |s|
  {
    s[p..p + 2] == "-p" && WsRun(s, p + 2) > 0 && DigitRun(s, p + 2 + WsRun(s, p + 2)) > 0
  }

  /** Where the digits of a port match at `p` start. */
  function PortDigitsAt(s: string, p: nat): (g: nat)
    requires p + 2 <= |s|
    ensures g <= |s|
  {
    p + 2 + WsRun(s, p + 2)
  }

  /** The digits of the leftmost `-p\s+[0-9]+` at or after `p`. */
  function PortFrom(s: string, p: nat): (r: Option<string>)
    ensures r.Some? ==> r.value != "" && AllDigits(r.value)
    decreases |s| - p
  {
    if p + 2 > |s| then None
    else if PortAt(s, p) then
      var g := PortDigitsAt(s, p);
      DigitRunIsDigits(s, g);
      Some(s[g..g + DigitRun(s, g)])
    else PortFrom(s, p + 1)
  }

  /** The search returns the greedy digit run of the first position where the
      pattern matches... */
  lemma {:induction false} PortFromFirst(s: string, p: nat, q: nat)
    requires p <= q && q + 2 <= |s| && PortAt(s, q)
    requires forall k :: p <= k < q ==> !PortAt(s, k)
    ensures var g := PortDigitsAt(s, q); PortFrom(s, p) == Some(s[g..g + DigitRun(s, g)])
    decreases q - p
  {
    if p < q {
      PortFromFirst(s, p + 1, q);
    }
  }

  /** ...and nothing when it matches nowhere. */
  lemma {:induction false} PortFromNone(s: string, p: nat)
    requires forall k :: p <= k && k + 2 <= |s| ==> !PortAt(s, k)
    ensures PortFrom(s, p) == None
    decreases |s| - p
  {
    if p + 2 <= |s| {
      PortFromNone(s, p + 1);
    }
  }

  lemma {:induction false} DigitRunIsDigits(s: string, i: nat)
    requires i <= |s|
    ensures AllDigits(s[i..i + DigitRun(s, i)])
    decreases |s| - i
  {
    if i < |s| && IsDigit(s[i]) {
      DigitRunIsDigits(s, i + 1);
      var n := DigitRun(s, i + 1);
      assert s[i..i + 1 + n] == [s[i]] + s[i + 1..i + 1 + n];
    }
  }

  /** Lines 65-66. */
  function FindPort(command: string): string {
    match PortFrom(command, 0)
    case Some(digits) => digits
    case None => "80"
  }

  lemma {:induction false} WsRunOver(s: string, i: nat, m: nat)
    requires i + m <= |s| && forall k :: i <= k < i + m ==> IsWs(s[k])
    requires i + m == |s| || !IsWs(s[i + m])
    ensures WsRun(s, i) == m
    decreases m
  {
    if m > 0 {
      WsRunOver(s, i + 1, m - 1);
    }
  }

  /** The port written after the first `-p` of a command, at any place in it:
      `-p`, white space, then digits that end where the next character is not
      a digit. */
  lemma FindPortAfterFlag(pre: string, ws: string, ds: string, rest: string)
    requires ws != [] && Blank(ws)
    requires ds != [] && AllDigits(ds)
    requires rest == [] || !IsDigit(rest[0])
    requires forall k :: 0 <= k < |pre| ==> !PortAt(pre + "-p" + ws + ds + rest, k)
    ensures FindPort(pre + "-p" + ws + ds + rest) == ds
  {
    var s := pre + "-p" + ws + ds + rest;
    var q := |pre|;
    var g := q + 2 + |ws|;
    assert s[q..q + 2] == "-p";
    assert s[q + 2..g] == ws;
    assert s[g..g + |ds|] == ds;
    assert g + |ds| < |s| ==> s[g + |ds|] == rest[0];
    FirstPortFlag(s, q, |ws|, |ds|);
  }

  /** FindPort on a plain text whose first match is the flag at `q`. */
  lemma FirstPortFlag(s: string, q: nat, w: nat, m: nat)
    requires q + 2 + w + m <= |s| && w > 0 && m > 0
    requires s[q..q + 2] == "-p"
    requires Blank(s[q + 2..q + 2 + w])
    requires AllDigits(s[q + 2 + w..q + 2 + w + m])
    requires q + 2 + w + m == |s| || !IsDigit(s[q + 2 + w + m])
    requires forall k :: 0 <= k < q ==> !PortAt(s, k)
    ensures FindPort(s) == s[q + 2 + w..q + 2 + w + m]
  {
    PortMatchAt(s, q, w, m);
    PortFromFirst(s, 0, q);
  }

  /** The flag, a white-space run of `w` and a digit run of `m` at `q`. */
  lemma PortMatchAt(s: string, q: nat, w: nat, m: nat)
    requires q + 2 + w + m <= |s| && w > 0 && m > 0
    requires s[q..q + 2] == "-p"
    requires Blank(s[q + 2..q + 2 + w])
    requires AllDigits(s[q + 2 + w..q + 2 + w + m])
    requires q + 2 + w + m == |s| || !IsDigit(s[q + 2 + w + m])
    ensures PortAt(s, q) && PortDigitsAt(s, q) == q + 2 + w && DigitRun(s, q + 2 + w) == m
  {
    var g := q + 2 + w;
    forall k | q + 2 <= k < g ensures IsWs(s[k]) {
      assert s[k] == s[q + 2..g][k - q - 2];
    }
    forall k | g <= k < g + m ensures IsDigit(s[k]) {
      assert s[k] == s[g..g + m][k - g];
    }
    assert !IsWs(s[g]);
    WsRunOver(s, q + 2, w);
    DigitRunOver(s, g, m);
  }

  /** A command with no `-p` flag gets the default port 80. */
  lemma FindPortDefault(command: string)
    requires !Contains(command, "-p")
    ensures FindPort(command) == "80"
  {
    forall k | 0 <= k && k + 2 <= |command| ensures !PortAt(command, k) {
      if command[k..k + 2] == "-p" {
        ContainsAt(command, "-p", k);
      }
    }
    PortFromNone(command, 0);
  }

  /** The port text is always a decimal number, so `parseInt(port)` is never
      NaN: the body's port is that number. */
  lemma PortIsNumber(command: string)
    ensures FindPort(command) != "" && AllDigits(FindPort(command))
    ensures ParseInt(FindPort(command)) == Some(DigitsValue(FindPort(command)))
  {
    var port := FindPort(command);
    assert AllDigits(port) by {
      if PortFrom(command, 0).None? {
        assert port == "80";
        assert forall i :: 0 <= i < |port| ==> IsDigit(port[i]);
      }
    }
    ParseIntOfPlainDigits(port);
  }

  // ---------------------------------------------------------------------------
  // The scan type (lines 69-74)

  function ScanTypeOf(command: string): (t: string)
    ensures t in {"icmp_echo", "udp", "tcp_synscan"}
  {
    if Contains(command, "-M icmp_echo") then "icmp_echo"
    else if Contains(command, "-M udp") then "udp"
    else "tcp_synscan"
  }

  /** The ICMP test is a substring test, so the echo-scan module name is caught
      by it too, and wins over a UDP module. */
  lemma EchoScanIsIcmp(command: string)
    requires Contains(command, "-M icmp_echoscan")
    ensures ScanTypeOf(command) == "icmp_echo"
  {
    ContainsStart(command, "-M icmp_echoscan", "-M icmp_echo");
  }

  /** A scan type other than the TCP SYN default needs a module flag. */
  lemma OtherTypesNeedModule(command: string)
    ensures ScanTypeOf(command) != "tcp_synscan" ==> Contains(command, "-M ")
  {
    if Contains(command, "-M icmp_echo") {
      ContainsStart(command, "-M icmp_echo", "-M ");
    } else if Contains(command, "-M udp") {
      ContainsStart(command, "-M udp", "-M ");
    }
  }

  // ---------------------------------------------------------------------------
  // The request and its outcome

  /** The body posted to /api/scan; its options are always empty. */
  datatype Request = Request(subnet: string, port: int, scanType: string)

  /** What the API's JSON reply holds, or the message of the error that
      `fetch` or `response.json()` threw.  `count` is None when the reply has
      none and is then rendered as "undefined". */
  datatype Reply =
    | Thrown(message: string)
    | Reply(ok: bool, error: Option<string>, success: bool, scanId: Option<string>, count: Option<int>)

  datatype Notice = Notice(title: string, description: string)

  const NoSubnet := "Could not determine target subnet from command."
  const NotInstalled := "ZMap is not installed on the server. Please install ZMap to use this feature.\n\n"
                        + "Visit: https://github.com/zmap/zmap for installation instructions."

  /** The request the console posts for a command, None when no subnet is
      found in it (lines 51-74). */
  function RequestOf(command: string): (r: Option<Request>)
    ensures r.None? <==> FindSubnet(command).None?
    ensures r.Some? ==> && r.value.subnet == FindSubnet(command).value
                        && CidrShaped(r.value.subnet)
                        && r.value.port >= 0
                        && NatToString(r.value.port) != ""
                        && r.value.scanType in {"icmp_echo", "udp", "tcp_synscan"}
  {
    match FindSubnet(command)
    case None => None
    case Some(subnet) =>
      SubnetIsToken(command, 0, false);
      PortIsNumber(command);
      Some(Request(subnet, ParseInt(FindPort(command)).value, ScanTypeOf(command)))
  }

  /** The request the console would post with the corrected subnet search
      (see the findings): the same port and scan type. */
  function RequestOfCorrected(command: string): (r: Option<Request>)
    ensures r.None? <==> FindSubnetCorrected(command).None?
    ensures r.Some? ==> && r.value.subnet == FindSubnetCorrected(command).value
                        && CidrShaped(r.value.subnet)
                        && r.value.port == DigitsValue(FindPort(command))
                        && r.value.scanType == ScanTypeOf(command)
  {
    match FindSubnetCorrected(command)
    case None => None
    case Some(subnet) =>
      SubnetIsToken(command, 0, true);
      PortIsNumber(command);
      Some(Request(subnet, ParseInt(FindPort(command)).value, ScanTypeOf(command)))
  }

  /** The request carries the port written after `-p` in the command, or 80. */
  lemma RequestPort(command: string)
    requires RequestOf(command).Some?
    ensures RequestOf(command).value.port == DigitsValue(FindPort(command))
    ensures PortFrom(command, 0).None? ==> RequestOf(command).value.port == 80
  {
    PortIsNumber(command);
    if PortFrom(command, 0).None? {
      assert FindPort(command) == "80";
      assert DigitsValue("80") == DigitsValue("8") * 10 + 0;
      assert DigitsValue("8") == 8;
    }
  }

  /** `zmap -p 443 10.0.0.0/8` starts a scan of 10.0.0.0/8 on port 443. */
  lemma PortAndSubnetAreRead()
    ensures var r := RequestOf("zmap -p 443 10.0.0.0/8");
      r.Some? && r.value.subnet == "10.0.0.0/8" && r.value.port == 443
  {
    var c := "zmap -p 443 10.0.0.0/8";
    ExampleSubnet(c);
    ExamplePort(c);
    RequestPort(c);
    assert DigitsValue("443") == 443 by {
      assert "443"[..2] == "44" && "44"[..1] == "4" && "4"[..0] == "";
    }
  }

  lemma ExampleSubnet(c: string)
    requires c == "zmap -p 443 10.0.0.0/8"
    ensures FindSubnet(c) == Some("10.0.0.0/8")
  {
    ExampleParts(c);
    SubnetAfterWords("-p 443", "10.0.0.0", "8");
  }

  lemma ExampleParts(c: string)
    requires c == "zmap -p 443 10.0.0.0/8"
    ensures IsWords("-p 443")
    ensures var d := "10.0.0.0"; forall k :: 0 <= k < |d| ==> IsDotDigit(d[k])
    ensures AllDigits("8") && "10.0.0.0" + "/" + "8" == "10.0.0.0/8"
    ensures "zmap " + "-p 443" + " " + "10.0.0.0" + "/" + "8" == c
  {
  }

  lemma ExamplePort(c: string)
    requires c == "zmap -p 443 10.0.0.0/8"
    ensures FindPort(c) == "443"
  {
    var rest := " 10.0.0.0/8";
    assert "zmap " + "-p" + " " + "443" + rest == c;
    forall k | 0 <= k < 5 ensures !PortAt(c, k) {
      assert c[k..k + 2][0] == c[k];
    }
    assert Blank(" ");
    assert AllDigits("443");
    FindPortAfterFlag("zmap ", " ", "443", rest);
  }

  /** The toast the reply leads to, and whether the scan succeeded (lines
      106-145): a reply that is not ok reports the install hint when the error
      mentions that ZMap is missing and the error, or a stock text, otherwise;
      an ok reply without success reports its error or "Scan failed". */
  function Outcome(reply: Reply): (r: (Notice, bool))
    ensures r.1 <==> reply.Reply? && reply.ok && reply.success
    ensures r.0.title == "Error" <==> !r.1
    ensures reply.Reply? && !reply.ok && Truthy(reply.error) && Contains(reply.error.value, "ZMap is not installed")
            ==> r.0.description == NotInstalled
    ensures reply.Reply? && !reply.ok && !Truthy(reply.error) ==> r.0.description == "Failed to start scan"
    ensures reply.Reply? && reply.ok && !reply.success ==>
            r.0.description == (if Truthy(reply.error) then reply.error.value else "Scan failed")
  {
    match reply
    case Thrown(message) => (Notice("Error", message), false)
    case Reply(ok, error, success, _, count) =>
      if !ok then
        if Truthy(error) && Contains(error.value, "ZMap is not installed") then (Notice("Error", NotInstalled), false)
        else (Notice("Error", if Truthy(error) then error.value else "Failed to start scan"), false)
      else if success then
        (Notice("Scan completed", "Found " + (match count case Some(n) => IntToString(n) case None => "undefined") + " hosts."), true)
      else (Notice("Error", if Truthy(error) then error.value else "Scan failed"), false)
  }

  /** The command line the configuration form builds is what the console
      parses; a form that fills in only the subnet builds `zmap <subnet>`,
      in which the console finds no subnet. */
  lemma SubnetOnlyForm(d: string, n: string)
    requires d != [] && (forall k :: 0 <= k < |d| ==> IsDotDigit(d[k]))
    requires n != [] && AllDigits(n)
    ensures var f := ScanConfiguration.InitialForm().(subnets := d + "/" + n);
      && ScanConfiguration.Command(f) == "zmap " + d + "/" + n
      && RequestOf(ScanConfiguration.Command(f)) == None
      && RequestOfCorrected(ScanConfiguration.Command(f)).Some?
      && RequestOfCorrected(ScanConfiguration.Command(f)).value.subnet == d + "/" + n
  {
    var t := d + "/" + n;
    var f := ScanConfiguration.InitialForm().(subnets := t);
    assert f == ScanConfiguration.InitialForm().(subnets := t, bandwidthUnit := "M");
    ScanConfiguration.DefaultsAddNoFlag(t, "M");
    var c := ScanConfiguration.Command(f);
    assert c == "zmap " + d + "/" + n;
    SubnetAloneIsMissed(d, n);
    SubnetAloneIsFound(d, n);
  }

  // ---------------------------------------------------------------------------
  // The console

  class Console {
    var scanId: Option<string>
    var activeTab: string
    var scanning: bool
    var scanProgress: real
    var scanCommand: string
    var showMissingConfigToast: bool
    /** Whether the progress interval is set. */
    var ticking: bool

    /** The progress bar stays within 0..100. */
    predicate Valid()
      reads this
    {
      0.0 <= scanProgress <= 100.0
    }

    constructor ()
      ensures Valid()
      ensures scanId == None && activeTab == "scan" && !scanning && scanProgress == 0.0
      ensures scanCommand == "" && !showMissingConfigToast && !ticking
    {
      scanId := None;
      activeTab := "scan";
      scanning := false;
      scanProgress := 0.0;
      scanCommand := "";
      showMissingConfigToast := false;
      ticking := false;
    }

    /** handleCommandUpdate: the configuration form reports its command. */
    method HandleCommandUpdate(command: string)
      modifies this`scanCommand
      ensures scanCommand == command
    {
      scanCommand := command;
    }

    /** The first half of startScan, up to the request being sent: without a
        command only the missing-configuration flag is raised; without a
        subnet the error toast is shown and nothing is sent; otherwise the
        progress restarts, the interval is set and the request goes out. */
    method StartScan() returns (sent: Option<Request>, notice: Option<Notice>)
      requires Valid()
      modifies this`scanning, this`scanProgress, this`showMissingConfigToast, this`ticking
      ensures Valid()
      ensures old(scanCommand) == "" ==>
        && sent == None && notice == None && showMissingConfigToast
        && scanning == old(scanning) && scanProgress == old(scanProgress) && ticking == old(ticking)
      ensures old(scanCommand) != "" ==>
        && sent == RequestOf(scanCommand)
        && showMissingConfigToast == old(showMissingConfigToast)
        && scanProgress == 0.0
        && (sent.None? ==> notice == Some(Notice("Error", NoSubnet)) && !scanning && ticking == old(ticking))
        && (sent.Some? ==> notice == None && scanning && ticking)
    {
      if scanCommand == "" {
        showMissingConfigToast := true;
        return None, None;
      }
      scanning := true;
      scanProgress := 0.0;
      sent := RequestOf(scanCommand);
      if sent.None? {
        scanning := false;
        return None, Some(Notice("Error", NoSubnet));
      }
      ticking := true;
      notice := None;
    }

    /** One tick of the progress interval: up by `increment` (a random number
        below 3), capped at 95 until the reply comes. */
    method Tick(increment: real)
      requires Valid() && 0.0 <= increment < 3.0
      modifies this`scanProgress
      ensures Valid()
      ensures old(ticking) ==> scanProgress == (if old(scanProgress) + increment < 95.0 then old(scanProgress) + increment else 95.0)
      ensures !old(ticking) ==> scanProgress == old(scanProgress)
    {
      if ticking {
        var next := scanProgress + increment;
        scanProgress := if next < 95.0 then next else 95.0;
      }
    }

    /** The second half of startScan, once the reply (or the error) is in:
        the interval is cleared, a successful scan is recorded and the results
        tab opened, and the scan is over either way. */
    method ScanReplied(reply: Reply) returns (notice: Notice)
      requires Valid()
      modifies this`scanId, this`activeTab, this`scanning, this`scanProgress, this`ticking
      ensures Valid()
      ensures notice == Outcome(reply).0
      ensures !scanning && !ticking
      ensures Outcome(reply).1 ==> scanId == reply.scanId && scanProgress == 100.0 && activeTab == "results"
      ensures !Outcome(reply).1 ==> scanId == old(scanId) && scanProgress == old(scanProgress) && activeTab == old(activeTab)
    {
      ticking := false;
      var outcome := Outcome(reply);
      notice := outcome.0;
      if outcome.1 {
        scanId := reply.scanId;
        scanProgress := 100.0;
        activeTab := "results";
      }
      scanning := false;
    }

    /** stopScan: the bar is reset; the interval and the request go on. */
    method StopScan() returns (notice: Notice)
      modifies this`scanning, this`scanProgress
      ensures Valid()
      ensures !scanning && scanProgress == 0.0
      ensures notice == Notice("Scan stopped", "The scan was stopped by user.")
    {
      scanning := false;
      scanProgress := 0.0;
      notice := Notice("Scan stopped", "The scan was stopped by user.");
    }

    /** The effect that shows the missing-configuration toast and lowers the flag. */
    method ShowPendingToast() returns (notice: Option<Notice>)
      modifies this`showMissingConfigToast
      ensures !showMissingConfigToast
      ensures notice == if old(showMissingConfigToast)
        then Some(Notice("Missing configuration", "Please configure your scan parameters first."))
        else None
    {
      notice := None;
      if showMissingConfigToast {
        notice := Some(Notice("Missing configuration", "Please configure your scan parameters first."));
        showMissingConfigToast := false;
      }
    }
  }

  /** A console given the command of a form that fills in only a subnet
      refuses to start the scan: it sends nothing and shows the no-subnet
      error. */
  method LoneSubnetIsRefused(d: string, n: string) returns (sent: Option<Request>, notice: Option<Notice>)
    requires d != [] && (forall k :: 0 <= k < |d| ==> IsDotDigit(d[k]))
    requires n != [] && AllDigits(n)
    ensures sent == None && notice == Some(Notice("Error", NoSubnet))
  {
    var f := ScanConfiguration.InitialForm().(subnets := d + "/" + n);
    SubnetOnlyForm(d, n);
    var console := new Console();
    console.HandleCommandUpdate(ScanConfiguration.Command(f));
    sent, notice := console.StartScan();
  }
}
