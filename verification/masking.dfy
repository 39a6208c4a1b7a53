/**
 * The redaction step of the log summariser (`maskSensitiveData`): three
 * global regular-expression replacements applied in order.
 *
 *   1. an e-mail shape                      becomes "[EMAIL]"
 *   2. a word-bounded run of 32+ ASCII alphanumerics becomes "[API_KEY]"
 *   3. "Bearer", whitespace, a non-space run  becomes "Bearer [TOKEN]"
 *
 * Each pattern is written as a function giving the length of its match at the
 * start of a text (0 when there is none), with the greedy-then-backtrack
 * behaviour of the regular expression worked out; each replacement is a
 * left-to-right scanner that, like a global `replace`, resumes after a match.
 */
module LogMasking {
  import opened Wrappers
  import opened Text

  const EmailMask := "[EMAIL]"
  const ApiKeyMask := "[API_KEY]"
  const BearerMask := "Bearer [TOKEN]"
  const BearerWord := "Bearer"
  const MinKeyLength := 32

  /** The character classes the three patterns are built from. */
  datatype CharClass = EmailLocal | EmailDomain | Letter | KeyChar | Space | NonSpace

  predicate InClass(cls: CharClass, c: char) {
    match cls
    case EmailLocal => IsAsciiAlnum(c) || c == '.' || c == '_' || c == '%' || c == '+' || c == '-'
    case EmailDomain => IsAsciiAlnum(c) || c == '.' || c == '-'
    case Letter => IsAsciiAlpha(c)
    case KeyChar => IsAsciiAlnum(c)
    case Space => IsJsSpace(c)
    case NonSpace => !IsJsSpace(c)
  }

  /** Length of the longest prefix of `t` inside `cls`: what a greedy `+` or `*` takes. */
  function RunLength(t: string, cls: CharClass): (n: nat)
    ensures n <= |t|
    ensures forall k :: 0 <= k < n ==> InClass(cls, t[k])
    ensures n < |t| ==> !InClass(cls, t[n])
  {
    if t == [] || !InClass(cls, t[0]) then 0 else 1 + RunLength(t[1..], cls)
  }

  /** The three conditions above determine the run length. */
  lemma RunLengthIs(t: string, cls: CharClass, n: nat)
    requires n <= |t|
    requires forall k :: 0 <= k < n ==> InClass(cls, t[k])
    requires n < |t| ==> !InClass(cls, t[n])
    ensures RunLength(t, cls) == n
  {
  }

  /** A mask whose last character is outside `cls` holds every run that starts inside it. */
  lemma RunInsideMask(mask: string, rest: string, p: nat, cls: CharClass)
    requires p < |mask|
    requires !InClass(cls, mask[|mask| - 1])
    ensures RunLength((mask + rest)[p..], cls) == RunLength(mask[p..], cls) < |mask| - p
  {
    var x := (mask + rest)[p..];
    var y := mask[p..];
    var q := RunLength(y, cls);
    assert y[|y| - 1] == mask[|mask| - 1];
    assert q < |y|;
    forall k | 0 <= k <= q
      ensures x[k] == y[k]
    {
    }
    RunLengthIs(x, cls, q);
  }

  // ---------------------------------------------------------------------
  // Rule 1: /[a-zA-Z0-9._%+-]+@[a-zA-Z0-9.-]+\.[a-zA-Z]{2,}/g

  /** Where `\.[a-zA-Z]{2,}` can start in the text after the '@'. */
  predicate TldDotAt(d: string, m: int) {
    0 <= m && m + 2 < |d| && d[m] == '.' && IsAsciiAlpha(d[m + 1]) && IsAsciiAlpha(d[m + 2])
  }

  /**
   * The greedy domain part backtracks from the right, so the dot that starts
   * the top-level domain is the LAST candidate in [lo, hi).
   */
  function LastTldDot(d: string, lo: nat, hi: nat): (r: Option<nat>)
    decreases hi
    ensures r.Some? ==> lo <= r.value < hi && TldDotAt(d, r.value)
    ensures r.Some? ==> forall m :: r.value < m < hi ==> !TldDotAt(d, m)
    ensures r.None? ==> forall m :: lo <= m < hi ==> !TldDotAt(d, m)
  {
    if hi <= lo then None
    else if TldDotAt(d, hi - 1) then Some(hi - 1)
    else LastTldDot(d, lo, hi - 1)
  }

  /** Length of the e-mail match at the start of `t`, 0 when there is none. */
  function EmailLength(t: string): (n: nat)
    ensures n <= |t|
  {
    var j := RunLength(t, EmailLocal);
    if j == 0 || j == |t| || t[j] != '@' then 0
    else
      var d := t[j + 1..];
      match LastTldDot(d, 1, RunLength(d, EmailDomain))
      case None => 0
      case Some(m) => j + 1 + m + 1 + RunLength(d[m + 1..], Letter)
  }

  /** Rule 1 as a scanner. */
  function MaskEmails(t: string): string
    decreases |t|
  {
    if t == [] then []
    else
      var n := EmailLength(t);
      if n > 0 then EmailMask + MaskEmails(t[n..]) else [t[0]] + MaskEmails(t[1..])
  }

  /** No position of `x` starts an e-mail shape. */
  predicate NoEmail(x: string) {
    forall p :: 0 <= p < |x| ==> EmailAt(x, p) == 0
  }

  /** The e-mail match starting at position p of `x`. */
  function EmailAt(x: string, p: nat): nat
    requires p <= |x|
  {
    EmailLength(x[p..])
  }

  /** A character that ends every run an e-mail match is made of. */
  predicate IsStopper(c: char) {
    !InClass(EmailLocal, c) && !InClass(EmailDomain, c) && c != '@'
  }

  /** `a` and `b` agree on their first w characters. */
  predicate SameBefore(a: string, b: string, w: int) {
    0 <= w <= |a| && w <= |b| && forall k :: 0 <= k < w ==> a[k] == b[k]
  }

  lemma SameBeforeCons(c: char, a: string, b: string, w: int)
    requires SameBefore(a, b, w)
    ensures SameBefore([c] + a, [c] + b, w + 1)
  {
  }

  /** `out` equals `t` before position w, and has a stopper at w. */
  predicate AgreeBeforeStopper(out: string, t: string, w: int) {
    SameBefore(out, t, w) && w < |out| && IsStopper(out[w])
  }



  /** The domain part of an e-mail that ends before a stopper survives in any text agreeing up to it. */
  lemma DomainExtends(du: string, ds: string, w: nat)
    requires SameBefore(du, ds, w)
    requires w < |du| ==> IsStopper(du[w])
    requires LastTldDot(du, 1, RunLength(du, EmailDomain)).Some?
    ensures LastTldDot(ds, 1, RunLength(ds, EmailDomain)).Some?
  {
    var ku := RunLength(du, EmailDomain);
    var m := LastTldDot(du, 1, ku).value;
    assert InClass(EmailDomain, du[m + 1]) && InClass(EmailDomain, du[m + 2]);
    assert m + 2 < ku;
    var ks := RunLength(ds, EmailDomain);
    assert TldDotAt(ds, m);
  }

  /** The shape an e-mail match needs: a local part, an '@', and a domain with a top-level dot. */
  predicate EmailShape(t: string) {
    var j := RunLength(t, EmailLocal);
    0 < j < |t| && t[j] == '@' && LastTldDot(t[j + 1..], 1, RunLength(t[j + 1..], EmailDomain)).Some?
  }

  lemma EmailShapeMatches(t: string)
    ensures EmailLength(t) > 0 <==> EmailShape(t)
  {
  }

  /**
   * If a text starts with an e-mail that ends before a stopper, any text that
   * agrees with it up to that stopper starts with an e-mail too.
   */
  lemma EmailExtends(u: string, s: string, w: nat)
    requires SameBefore(u, s, w)
    requires w < |u| ==> IsStopper(u[w])
    requires EmailShape(u)
    ensures EmailShape(s)
  {
    var j := RunLength(u, EmailLocal);
    LocalPartEndsBefore(u, w);
    RunLengthAgrees(u, s, w, EmailLocal);
    assert s[j] == u[j];
    DomainAgrees(u, s, w, j);
  }

  /** The domain part after position j survives in a text agreeing up to a stopper past j. */
  lemma DomainAgrees(u: string, s: string, w: nat, j: nat)
    requires SameBefore(u, s, w) && j < w && (w < |u| ==> IsStopper(u[w]))
    requires LastTldDot(u[j + 1..], 1, RunLength(u[j + 1..], EmailDomain)).Some?
    ensures LastTldDot(s[j + 1..], 1, RunLength(s[j + 1..], EmailDomain)).Some?
  {
    var du := u[j + 1..];
    SameBeforeDrop(u, s, w, j + 1);
    assert w - j - 1 < |du| ==> du[w - j - 1] == u[w];
    DomainExtends(du, s[j + 1..], w - j - 1);
  }

  /** A run that ends inside the agreement of two texts is a run of both. */
  lemma RunLengthAgrees(u: string, s: string, w: nat, cls: CharClass)
    requires SameBefore(u, s, w) && RunLength(u, cls) < w
    ensures RunLength(s, cls) == RunLength(u, cls)
  {
    var j := RunLength(u, cls);
    assert s[j] == u[j];
    RunLengthIs(s, cls, j);
  }

  /** The local part of an e-mail at the start of `u`, and its '@', lie before any stopper. */
  lemma LocalPartEndsBefore(u: string, w: nat)
    requires w <= |u| && (w < |u| ==> IsStopper(u[w]))
    requires RunLength(u, EmailLocal) < |u| && u[RunLength(u, EmailLocal)] == '@'
    ensures RunLength(u, EmailLocal) < w
  {
    var j := RunLength(u, EmailLocal);
    if w < |u| {
      assert !InClass(EmailLocal, u[w]);
      assert j <= w;
      assert u[w] != u[j];
    }
  }

  /** Agreement up to w carries over to the suffixes from n. */
  lemma SameBeforeDrop(u: string, s: string, w: nat, n: nat)
    requires SameBefore(u, s, w) && n <= w
    ensures SameBefore(u[n..], s[n..], w - n)
  {
    forall k | 0 <= k < w - n
      ensures u[n..][k] == s[n..][k]
    {
      assert u[n..][k] == u[n + k] && s[n..][k] == s[n + k];
    }
  }

  /** A copied first character starts no e-mail when the input's first character did not. */
  lemma CopyStartsNoEmail(out: string, t: string)
    requires EmailLength(t) == 0
    requires out == t || exists w :: AgreeBeforeStopper(out, t, w)
    ensures EmailLength(out) == 0
  {
    if out != t {
      var w :| AgreeBeforeStopper(out, t, w);
      EmailShapeMatches(out);
      EmailShapeMatches(t);
      if EmailShape(out) {
        EmailExtends(out, t, w);
      }
    }
  }

  /** A mask ending in a character outside every local part, and holding no '@', starts no e-mail. */
  lemma MaskStartsNoEmail(mask: string, rest: string, p: nat)
    requires p < |mask|
    requires !InClass(EmailLocal, mask[|mask| - 1])
    requires forall k :: 0 <= k < |mask| ==> mask[k] != '@'
    ensures EmailLength((mask + rest)[p..]) == 0
  {
    RunInsideMask(mask, rest, p, EmailLocal);
    var x := (mask + rest)[p..];
    var q := RunLength(x, EmailLocal);
    assert x[q] == mask[p + q];
  }

  /** A replacement text: it ends in a character that ends every e-mail and key run, and holds no '@'. */
  predicate Inert(mask: string) {
    && 0 < |mask| <= MinKeyLength
    && !InClass(EmailLocal, mask[|mask| - 1]) && !IsWordChar(mask[|mask| - 1])
    && forall k :: 0 <= k < |mask| ==> mask[k] != '@'
  }

  lemma MasksAreInert()
    ensures Inert(EmailMask) && Inert(ApiKeyMask) && Inert(BearerMask)
  {
  }

  /** Putting such a mask in front of a text free of e-mails keeps it free of them. */
  lemma MaskThenNoEmail(mask: string, r: string)
    requires Inert(mask)
    requires NoEmail(r)
    ensures NoEmail(mask + r)
  {
    forall p | 0 <= p < |mask + r|
      ensures EmailAt(mask + r, p) == 0
    {
      if p < |mask| {
        MaskStartsNoEmail(mask, r, p);
      } else {
        assert (mask + r)[p..] == r[p - |mask|..];
        assert EmailAt(r, p - |mask|) == 0;
      }
    }
  }

  /** A scanner step that copies the first character keeps the output free of e-mails. */
  lemma CopyThenNoEmail(t: string, r: string)
    requires t != [] && EmailLength(t) == 0 && NoEmail(r)
    requires var out := [t[0]] + r;
      out == t || exists w :: AgreeBeforeStopper(out, t, w)
    ensures NoEmail([t[0]] + r)
  {
    var out := [t[0]] + r;
    forall p | 0 <= p < |out|
      ensures EmailAt(out, p) == 0
    {
      if p == 0 {
        assert out[0..] == out;
        CopyStartsNoEmail(out, t);
      } else {
        assert out[p..] == r[p - 1..];
        assert EmailAt(r, p - 1) == 0;
      }
    }
  }

  /** Each scanner step shifts an agreement by the copied character. */
  lemma StopperShift(c: char, r: string, t: string)
    requires t != [] && t[0] == c
    requires r == t[1..] || exists w :: AgreeBeforeStopper(r, t[1..], w)
    ensures [c] + r == t || exists w :: AgreeBeforeStopper([c] + r, t, w)
  {
    assert t == [c] + t[1..];
    if r != t[1..] {
      var w :| AgreeBeforeStopper(r, t[1..], w);
      SameBeforeCons(c, r, t[1..], w);
      assert AgreeBeforeStopper([c] + r, t, w + 1);
    }
  }

  lemma {:induction false} MaskEmailsAgrees(t: string)
    ensures MaskEmails(t) == t || exists w :: AgreeBeforeStopper(MaskEmails(t), t, w)
    decreases |t|
  {
    if t != [] {
      var n := EmailLength(t);
      if n > 0 {
        var out := EmailMask + MaskEmails(t[n..]);
        assert MaskEmails(t) == out;
        assert out[0] == '[';
        assert AgreeBeforeStopper(out, t, 0);
      } else {
        MaskEmailsAgrees(t[1..]);
        StopperShift(t[0], MaskEmails(t[1..]), t);
        assert MaskEmails(t) == [t[0]] + MaskEmails(t[1..]);
      }
    }
  }

  /** After rule 1 no e-mail shape is left anywhere in the text. */
  lemma {:induction false} MaskEmailsLeavesNoEmail(t: string)
    ensures NoEmail(MaskEmails(t))
    decreases |t|
  {
    if t != [] {
      var n := EmailLength(t);
      if n > 0 {
        MaskEmailsLeavesNoEmail(t[n..]);
        MasksAreInert();
        MaskThenNoEmail(EmailMask, MaskEmails(t[n..]));
      } else {
        MaskEmailsLeavesNoEmail(t[1..]);
        MaskEmailsAgrees(t);
        CopyThenNoEmail(t, MaskEmails(t[1..]));
      }
    }
  }

  lemma NoEmailSuffix(t: string, n: nat)
    requires NoEmail(t) && n <= |t|
    ensures NoEmail(t[n..])
    ensures n < |t| ==> EmailLength(t[n..]) == 0
  {
    forall p | 0 <= p < |t[n..]|
      ensures EmailAt(t[n..], p) == 0
    {
      assert t[n..][p..] == t[n + p..];
      assert EmailAt(t, n + p) == 0;
    }
    assert n < |t| ==> EmailAt(t, n) == 0;
  }

  /** Rule 1 changes nothing in a text that holds no e-mail shape. */
  lemma {:induction false} MaskEmailsWithoutEmail(t: string)
    requires NoEmail(t)
    ensures MaskEmails(t) == t
    decreases |t|
  {
    if t != [] {
      NoEmailSuffix(t, 0);
      NoEmailSuffix(t, 1);
      MaskEmailsWithoutEmail(t[1..]);
    }
  }

  // ---------------------------------------------------------------------
  // Rule 2: /\b[A-Za-z0-9]{32,}\b/g

  /**
   * Length of the key match at the start of `t`, 0 when there is none;
   * `prevWord` says whether the character before `t` is a word character.
   * The greedy run cannot end at a boundary by backtracking (its characters
   * are all word characters), so it matches only whole.
   */
  function ApiKeyLength(t: string, prevWord: bool): (n: nat)
    ensures n <= |t|
  {
    var r := RunLength(t, KeyChar);
    if prevWord || r < MinKeyLength || (r < |t| && IsWordChar(t[r])) then 0 else r
  }

  /** Rule 2 as a scanner; the boundary test looks at the original text. */
  function MaskApiKeys(t: string, prevWord: bool): string
    decreases |t|
  {
    if t == [] then []
    else
      var n := ApiKeyLength(t, prevWord);
      if n > 0 then ApiKeyMask + MaskApiKeys(t[n..], true)
      else [t[0]] + MaskApiKeys(t[1..], IsWordChar(t[0]))
  }

  function PrevIsWord(x: string, p: nat, prevWord: bool): bool
    requires p <= |x|
  {
    if p == 0 then prevWord else IsWordChar(x[p - 1])
  }

  /** No position of `x` starts a word-bounded key. */
  predicate NoKey(x: string, prevWord: bool) {
    forall p :: 0 <= p < |x| ==> KeyAt(x, p, prevWord) == 0
  }

  /** The key match starting at position p of `x`. */
  function KeyAt(x: string, p: nat, prevWord: bool): nat
    requires p <= |x|
  {
    ApiKeyLength(x[p..], PrevIsWord(x, p, prevWord))
  }

  /** `out` equals `t` before w, where `out` holds a mask that a non-word character (or nothing) precedes. */
  predicate KeyAgree(out: string, t: string, prevWord: bool, w: int) {
    && SameBefore(out, t, w) && w < |out| && out[w] == '['
    && (if w == 0 then !prevWord else !IsWordChar(out[w - 1]))
  }

  lemma {:induction false} MaskApiKeysAgrees(t: string, prevWord: bool)
    ensures var out := MaskApiKeys(t, prevWord);
      out == t || exists w :: KeyAgree(out, t, prevWord, w)
    decreases |t|
  {
    if t != [] {
      var n := ApiKeyLength(t, prevWord);
      if n > 0 {
        var out := ApiKeyMask + MaskApiKeys(t[n..], true);
        assert MaskApiKeys(t, prevWord) == out;
        assert out[0] == '[';
        assert KeyAgree(out, t, prevWord, 0);
      } else {
        MaskApiKeysAgrees(t[1..], IsWordChar(t[0]));
        KeyShift(t[0], MaskApiKeys(t[1..], IsWordChar(t[0])), t, prevWord);
        assert MaskApiKeys(t, prevWord) == [t[0]] + MaskApiKeys(t[1..], IsWordChar(t[0]));
      }
    }
  }

  /** Each key-scanner step shifts an agreement by the copied character. */
  lemma KeyShift(c: char, r: string, t: string, prevWord: bool)
    requires t != [] && t[0] == c
    requires r == t[1..] || exists w :: KeyAgree(r, t[1..], IsWordChar(c), w)
    ensures [c] + r == t || exists w :: KeyAgree([c] + r, t, prevWord, w)
  {
    assert t == [c] + t[1..];
    if r != t[1..] {
      var w :| KeyAgree(r, t[1..], IsWordChar(c), w);
      SameBeforeCons(c, r, t[1..], w);
      assert KeyAgree([c] + r, t, prevWord, w + 1);
    }
  }

  /** A key agreement is also a stopper agreement: '[' ends every e-mail run. */
  lemma KeyAgreeStops(out: string, t: string, prevWord: bool)
    requires out == t || exists w :: KeyAgree(out, t, prevWord, w)
    ensures out == t || exists w :: AgreeBeforeStopper(out, t, w)
  {
    if out != t {
      var w :| KeyAgree(out, t, prevWord, w);
      assert AgreeBeforeStopper(out, t, w);
    }
  }

  /**
   * A key at the start of `out` whose run ends inside the agreement, or
   * exactly at it where `t` holds a non-word character, is a key of `t`.
   */
  lemma KeyExtends(out: string, t: string, prevWord: bool, w: nat)
    requires SameBefore(out, t, w)
    requires ApiKeyLength(out, prevWord) > 0
    requires var r := RunLength(out, KeyChar);
      r < w || (r == w && (w < |t| ==> !IsWordChar(t[w])))
    ensures ApiKeyLength(t, prevWord) > 0
  {
    var r := RunLength(out, KeyChar);
    assert r < w ==> out[r] == t[r];
    RunLengthIs(t, KeyChar, r);
  }

  /** A copied first character starts no key when the input's first character did not. */
  lemma KeyScanFirst(t: string, prevWord: bool)
    requires t != [] && ApiKeyLength(t, prevWord) == 0
    ensures ApiKeyLength([t[0]] + MaskApiKeys(t[1..], IsWordChar(t[0])), prevWord) == 0
  {
    var out := [t[0]] + MaskApiKeys(t[1..], IsWordChar(t[0]));
    assert out == MaskApiKeys(t, prevWord);
    MaskApiKeysAgrees(t, prevWord);
    if out != t && ApiKeyLength(out, prevWord) > 0 {
      var w :| KeyAgree(out, t, prevWord, w);
      assert !InClass(KeyChar, out[w]);
      KeyExtends(out, t, prevWord, w);
    }
  }

  /** A mask with no long alphanumeric run, before a text free of keys, keeps it free of keys. */
  lemma MaskThenNoKey(mask: string, r: string, rPrev: bool, prevWord: bool)
    requires Inert(mask)
    requires r == [] || !InClass(KeyChar, r[0])
    requires NoKey(r, rPrev)
    ensures NoKey(mask + r, prevWord)
  {
    var out := mask + r;
    forall p | 0 <= p < |out|
      ensures KeyAt(out, p, prevWord) == 0
    {
      if p < |mask| {
        RunInsideMask(mask, r, p, KeyChar);
      } else if p == |mask| {
        assert out[p..] == r;
      } else {
        assert out[p..] == r[p - |mask|..];
        assert out[p - 1] == r[p - |mask| - 1];
        assert KeyAt(r, p - |mask|, rPrev) == 0;
      }
    }
  }

  /** A scanner step that copies the first character keeps the output free of keys. */
  lemma CopyThenNoKey(c: char, r: string, prevWord: bool)
    requires NoKey(r, IsWordChar(c))
    requires ApiKeyLength([c] + r, prevWord) == 0
    ensures NoKey([c] + r, prevWord)
  {
    var out := [c] + r;
    forall p | 0 < p < |out|
      ensures KeyAt(out, p, prevWord) == 0
    {
      assert out[p..] == r[p - 1..];
      assert PrevIsWord(out, p, prevWord) == PrevIsWord(r, p - 1, IsWordChar(c));
      assert KeyAt(r, p - 1, IsWordChar(c)) == 0;
    }
    assert out[0..] == out;
    assert KeyAt(out, 0, prevWord) == 0;
  }

  /** Scanning resumes after a key on a non-word character, which it copies. */
  lemma AfterKey(t: string, prevWord: bool, n: nat)
    requires 0 < n == ApiKeyLength(t, prevWord)
    ensures var r := MaskApiKeys(t[n..], true);
      r == [] || !InClass(KeyChar, r[0])
  {
    if n < |t| {
      assert t[n..][0] == t[n];
    }
  }

  /** After rule 2 no word-bounded run of 32 or more alphanumerics is left. */
  lemma {:induction false} MaskApiKeysLeavesNoKey(t: string, prevWord: bool)
    ensures NoKey(MaskApiKeys(t, prevWord), prevWord)
    decreases |t|
  {
    if t != [] {
      var n := ApiKeyLength(t, prevWord);
      if n > 0 {
        MaskApiKeysLeavesNoKey(t[n..], true);
        AfterKey(t, prevWord, n);
        MasksAreInert();
        MaskThenNoKey(ApiKeyMask, MaskApiKeys(t[n..], true), true, prevWord);
      } else {
        MaskApiKeysLeavesNoKey(t[1..], IsWordChar(t[0]));
        KeyScanFirst(t, prevWord);
        CopyThenNoKey(t[0], MaskApiKeys(t[1..], IsWordChar(t[0])), prevWord);
      }
    }
  }

  lemma NoKeySuffix(t: string, prevWord: bool, n: nat)
    requires NoKey(t, prevWord) && 0 < n <= |t|
    ensures NoKey(t[n..], IsWordChar(t[n - 1]))
  {
    var u, b := t[n..], IsWordChar(t[n - 1]);
    forall p | 0 <= p < |u|
      ensures KeyAt(u, p, b) == 0
    {
      assert u[p..] == t[n + p..];
      assert PrevIsWord(u, p, b) == PrevIsWord(t, n + p, prevWord);
      assert KeyAt(t, n + p, prevWord) == 0;
    }
  }

  lemma NoKeyFirst(t: string, prevWord: bool)
    requires NoKey(t, prevWord) && t != []
    ensures ApiKeyLength(t, prevWord) == 0
  {
    assert t[0..] == t;
    assert KeyAt(t, 0, prevWord) == 0;
  }

  /** Rule 2 changes nothing in a text that holds no key. */
  lemma {:induction false} MaskApiKeysWithoutKey(t: string, prevWord: bool)
    requires NoKey(t, prevWord)
    ensures MaskApiKeys(t, prevWord) == t
    decreases |t|
  {
    if t != [] {
      NoKeyFirst(t, prevWord);
      NoKeySuffix(t, prevWord, 1);
      MaskApiKeysWithoutKey(t[1..], IsWordChar(t[0]));
    }
  }

  /** Rule 2 keeps a text free of e-mail shapes. */
  lemma {:induction false} MaskApiKeysKeepsNoEmail(t: string, prevWord: bool)
    requires NoEmail(t)
    ensures NoEmail(MaskApiKeys(t, prevWord))
    decreases |t|
  {
    if t != [] {
      var n := ApiKeyLength(t, prevWord);
      NoEmailSuffix(t, 0);
      if n > 0 {
        NoEmailSuffix(t, n);
        MaskApiKeysKeepsNoEmail(t[n..], true);
        MasksAreInert();
        MaskThenNoEmail(ApiKeyMask, MaskApiKeys(t[n..], true));
      } else {
        NoEmailSuffix(t, 1);
        MaskApiKeysKeepsNoEmail(t[1..], IsWordChar(t[0]));
        MaskApiKeysAgrees(t, prevWord);
        KeyAgreeStops(MaskApiKeys(t, prevWord), t, prevWord);
        CopyThenNoEmail(t, MaskApiKeys(t[1..], IsWordChar(t[0])));
      }
    }
  }

  // ---------------------------------------------------------------------
  // Rule 3: /Bearer\s+[^\s]+/g

  /**
   * Length of the token match at the start of `t`, 0 when there is none.
   * The greedy `\s+` cannot give back a space to `[^\s]+`, so a non-space
   * character must follow the whole whitespace run.
   */
  function BearerLength(t: string): (n: nat)
    ensures n <= |t|
  {
    if !StartsWith(t, BearerWord) then 0
    else
      var g := RunLength(t[6..], Space);
      if g == 0 || 6 + g == |t| then 0
      else 6 + g + RunLength(t[6 + g..], NonSpace)
  }

  /** Rule 3 as a scanner. */
  function MaskBearer(t: string): string
    decreases |t|
  {
    if t == [] then []
    else
      var n := BearerLength(t);
      if n > 0 then BearerMask + MaskBearer(t[n..]) else [t[0]] + MaskBearer(t[1..])
  }

  /**
   * `out` equals `t` before w; there `out` holds the single space of a mask
   * and `t` the first character of a whitespace run that a non-space
   * character at q follows.
   */
  predicate BearerAgree(out: string, t: string, w: int, q: int) {
    && SameBefore(out, t, w) && w < |out| && w < q < |t|
    && out[w] == ' ' && IsJsSpace(t[w]) && !IsJsSpace(t[q])
  }

  /** What follows a token match is whitespace, so a scan resumed there copies it. */
  lemma AfterBearer(t: string, n: nat)
    requires 0 < n == BearerLength(t) < |t|
    ensures IsJsSpace(t[n]) && BearerLength(t[n..]) == 0
    ensures MaskBearer(t[n..]) == [t[n]] + MaskBearer(t[n + 1..])
  {
    var g := RunLength(t[6..], Space);
    var tail := t[6 + g..];
    assert t[n] == tail[RunLength(tail, NonSpace)];
    var u := t[n..];
    assert u[0] == t[n] && t[n] != BearerWord[0];
    assert !StartsWith(u, BearerWord);
    assert u[1..] == t[n + 1..];
  }

  /** A token match's mask agrees with the input up to the space after "Bearer". */
  lemma BearerMatchAgrees(t: string, r: string)
    requires BearerLength(t) > 0
    ensures BearerAgree(BearerMask + r, t, 6, 6 + RunLength(t[6..], Space))
  {
    var out := BearerMask + r;
    var g := RunLength(t[6..], Space);
    assert t[..6] == BearerWord;
    assert out[..6] == BearerWord;
    assert forall k | 0 <= k < 6 :: out[k] == out[..6][k] && t[k] == t[..6][k];
    assert out[6] == ' ';
    assert t[6 + g] == t[6..][g];
    assert t[6] == t[6..][0];
  }

  lemma {:induction false} MaskBearerAgrees(t: string)
    ensures var out := MaskBearer(t);
      out == t || exists w, q :: BearerAgree(out, t, w, q)
    decreases |t|
  {
    if t != [] {
      var out := MaskBearer(t);
      if BearerLength(t) > 0 {
        assert out == BearerMask + MaskBearer(t[BearerLength(t)..]);
        BearerMatchAgrees(t, MaskBearer(t[BearerLength(t)..]));
      } else {
        var r := MaskBearer(t[1..]);
        MaskBearerAgrees(t[1..]);
        assert t == [t[0]] + t[1..];
        if r != t[1..] {
          var w, q :| BearerAgree(r, t[1..], w, q);
          SameBeforeCons(t[0], r, t[1..], w);
          assert BearerAgree(out, t, w + 1, q + 1);
        }
      }
    }
  }

  /** A bearer agreement is also a stopper agreement: the mask's space ends every e-mail run. */
  lemma BearerAgreeStops(out: string, t: string)
    requires out == t || exists w, q :: BearerAgree(out, t, w, q)
    ensures out == t || exists w :: AgreeBeforeStopper(out, t, w)
  {
    if out != t {
      var w, q :| BearerAgree(out, t, w, q);
      assert AgreeBeforeStopper(out, t, w);
    }
  }

  /** Rule 3 keeps a text free of e-mail shapes. */
  lemma {:induction false} MaskBearerKeepsNoEmail(t: string)
    requires NoEmail(t)
    ensures NoEmail(MaskBearer(t))
    decreases |t|
  {
    if t != [] {
      var n := BearerLength(t);
      NoEmailSuffix(t, 0);
      if n > 0 {
        NoEmailSuffix(t, n);
        MaskBearerKeepsNoEmail(t[n..]);
        MasksAreInert();
        MaskThenNoEmail(BearerMask, MaskBearer(t[n..]));
      } else {
        NoEmailSuffix(t, 1);
        MaskBearerKeepsNoEmail(t[1..]);
        MaskBearerAgrees(t);
        BearerAgreeStops(MaskBearer(t), t);
        CopyThenNoEmail(t, MaskBearer(t[1..]));
      }
    }
  }

  /** A key at the start of a text that agrees with a bearer input up to its mask is a key of the input. */
  lemma BearerKeyExtends(out: string, t: string, prevWord: bool, w: int, q: int)
    requires BearerAgree(out, t, w, q) && ApiKeyLength(out, prevWord) > 0
    ensures ApiKeyLength(t, prevWord) > 0
  {
    assert !InClass(KeyChar, out[w]);
    assert RunLength(out, KeyChar) <= w;
    assert !IsWordChar(t[w]);
    KeyExtends(out, t, prevWord, w);
  }

  /** A copied first character starts no key when the input's first character did not. */
  lemma BearerScanFirstKey(t: string, prevWord: bool)
    requires t != [] && BearerLength(t) == 0 && ApiKeyLength(t, prevWord) == 0
    ensures ApiKeyLength([t[0]] + MaskBearer(t[1..]), prevWord) == 0
  {
    var out := [t[0]] + MaskBearer(t[1..]);
    assert out == MaskBearer(t);
    MaskBearerAgrees(t);
    if out != t && ApiKeyLength(out, prevWord) > 0 {
      var w, q :| BearerAgree(out, t, w, q);
      BearerKeyExtends(out, t, prevWord, w, q);
    }
  }

  /** Rule 3 keeps a text free of word-bounded keys. */
  lemma {:induction false} MaskBearerKeepsNoKey(t: string, prevWord: bool)
    requires NoKey(t, prevWord)
    ensures NoKey(MaskBearer(t), prevWord)
    decreases |t|
  {
    if t != [] {
      var n := BearerLength(t);
      if n > 0 {
        NoKeySuffix(t, prevWord, n);
        MaskBearerKeepsNoKey(t[n..], IsWordChar(t[n - 1]));
        BearerMaskThenNoKey(t, n, MaskBearer(t[n..]), prevWord);
      } else {
        NoKeySuffix(t, prevWord, 1);
        MaskBearerKeepsNoKey(t[1..], IsWordChar(t[0]));
        BearerCopyThenNoKey(t, prevWord);
      }
    }
  }

  /** The mask step of rule 3, before a rest already free of keys, leaves no key. */
  lemma BearerMaskThenNoKey(t: string, n: nat, r: string, prevWord: bool)
    requires 0 < n == BearerLength(t) && r == MaskBearer(t[n..])
    requires NoKey(r, IsWordChar(t[n - 1]))
    ensures NoKey(BearerMask + r, prevWord)
  {
    if n < |t| {
      AfterBearer(t, n);
      assert r[0] == t[n];
    } else {
      assert t[n..] == [];
    }
    MasksAreInert();
    MaskThenNoKey(BearerMask, r, IsWordChar(t[n - 1]), prevWord);
  }

  /** The copy step of rule 3, before a rest already free of keys, leaves no key. */
  lemma BearerCopyThenNoKey(t: string, prevWord: bool)
    requires t != [] && BearerLength(t) == 0 && NoKey(t, prevWord)
    requires NoKey(MaskBearer(t[1..]), IsWordChar(t[0]))
    ensures NoKey(MaskBearer(t), prevWord)
  {
    NoKeyFirst(t, prevWord);
    BearerScanFirstKey(t, prevWord);
    assert MaskBearer(t) == [t[0]] + MaskBearer(t[1..]);
    CopyThenNoKey(t[0], MaskBearer(t[1..]), prevWord);
  }

  /** A mask followed by whitespace or nothing is a token match of its own length. */
  lemma BearerMaskMatches(r: string)
    requires r == [] || IsJsSpace(r[0])
    ensures BearerLength(BearerMask + r) == |BearerMask|
  {
    var out := BearerMask + r;
    assert StartsWith(out, BearerWord);
    var tail := out[6..];
    assert tail[0] == ' ' && tail[1] == '[';
    RunLengthIs(tail, Space, 1);
    var tok := out[7..];
    assert r != [] ==> tok[7] == r[0];
    RunLengthIs(tok, NonSpace, 7);
  }

  /** A token match at the start of a text that agrees with the input up to a mask is one of the input. */
  lemma BearerExtends(out: string, t: string, w: int, q: int)
    requires BearerAgree(out, t, w, q) && BearerLength(out) > 0
    ensures BearerLength(t) > 0
  {
    assert forall k | 0 <= k < 6 :: out[k] == BearerWord[k] && out[k] != ' ';
    assert 6 <= w;
    assert t[..6] == out[..6] == BearerWord;
    assert out[6..][0] == out[6];
    assert IsJsSpace(t[6]);
    assert t[6..][0] == t[6];
    assert t[6..][q - 6] == t[q];
  }

  /** A copied first character starts no token match when the input's first character did not. */
  lemma BearerScanFirst(t: string)
    requires t != [] && BearerLength(t) == 0
    ensures BearerLength([t[0]] + MaskBearer(t[1..])) == 0
  {
    var out := [t[0]] + MaskBearer(t[1..]);
    assert out == MaskBearer(t);
    MaskBearerAgrees(t);
    if out != t && BearerLength(out) > 0 {
      var w, q :| BearerAgree(out, t, w, q);
      BearerExtends(out, t, w, q);
    }
  }

  /** Rule 3 applied twice is rule 3 applied once. */
  lemma {:induction false} MaskBearerIdempotent(t: string)
    ensures MaskBearer(MaskBearer(t)) == MaskBearer(t)
    decreases |t|
  {
    if t != [] {
      var n := BearerLength(t);
      if n > 0 {
        var r := MaskBearer(t[n..]);
        MaskBearerIdempotent(t[n..]);
        if n < |t| {
          AfterBearer(t, n);
        }
        BearerMaskMatches(r);
        assert (BearerMask + r)[|BearerMask|..] == r;
      } else {
        var r := MaskBearer(t[1..]);
        MaskBearerIdempotent(t[1..]);
        BearerScanFirst(t);
        assert ([t[0]] + r)[1..] == r;
      }
    }
  }

  // ---------------------------------------------------------------------
  // The three rules together

  /**
   * `maskSensitiveData`: rules 1, 2 and 3 in this order. A text with nothing
   * left to mask passes through unchanged.
   */
  function MaskSensitiveData(text: string): (r: string)
    ensures NoEmail(text) && NoKey(text, false) && MaskBearer(text) == text ==> r == text
  {
    var masked := MaskBearer(MaskApiKeys(MaskEmails(text), false));
    if NoEmail(text) && NoKey(text, false) then
      MaskEmailsWithoutEmail(text);
      MaskApiKeysWithoutKey(text, false);
      masked
    else
      masked
  }

  /**
   * The masked text holds no e-mail shape and no word-bounded key, and every
   * bearer token in it is already "[TOKEN]".
   */
  lemma MaskSensitiveDataLeavesNothing(text: string)
    ensures var r := MaskSensitiveData(text);
      NoEmail(r) && NoKey(r, false) && MaskBearer(r) == r
  {
    var a := MaskEmails(text);
    var b := MaskApiKeys(a, false);
    MaskEmailsLeavesNoEmail(text);
    MaskApiKeysKeepsNoEmail(a, false);
    MaskBearerKeepsNoEmail(b);
    MaskApiKeysLeavesNoKey(a, false);
    MaskBearerKeepsNoKey(b, false);
    MaskBearerIdempotent(b);
  }

  /** Masking an already masked text changes nothing. */
  lemma MaskSensitiveDataIdempotent(text: string)
    ensures MaskSensitiveData(MaskSensitiveData(text)) == MaskSensitiveData(text)
  {
    MaskSensitiveDataLeavesNothing(text);
  }
}
