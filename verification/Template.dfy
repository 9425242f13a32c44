/**
 * The personalisation of a mail (backend/marketing/sender.go): five ReplaceAll passes one after the other, and exactly
 * when they amount to one simultaneous substitution.
 */
module Template {

  datatype Slot = Name | Email | UnsubscribeUrl | TrackingPixelUrl | InviteUrl

  function Placeholder(s: Slot): (p: string)
    ensures |p| > 3
  {
    match s
    case Name => "{{.Name}}"
    case Email => "{{.Email}}"
    case UnsubscribeUrl => "{{.UnsubscribeURL}}"
    case TrackingPixelUrl => "{{.TrackingPixelURL}}"
    case InviteUrl => "{{.InviteURL}}"
  }

  /** strings.ReplaceAll: non-overlapping, from the left. */
  function ReplaceAll(s: string, target: string, value: string): string
    requires target != ""
    decreases |s|
  {
    if |s| < |target| then s
    else if target <= s then value + ReplaceAll(s[|target|..], target, value)
    else [s[0]] + ReplaceAll(s[1..], target, value)
  }

  datatype Values = Values(name: string, email: string, unsubscribeUrl: string, trackingUrl: string, inviteUrl: string)

  function Value(v: Values, s: Slot): string {
    match s
    case Name => v.name
    case Email => v.email
    case UnsubscribeUrl => v.unsubscribeUrl
    case TrackingPixelUrl => v.trackingUrl
    case InviteUrl => v.inviteUrl
  }

  /** The passes in the order of the code; the values of the first two are already escaped. */
  function Personalized(html: string, v: Values): string {
    var body := ReplaceAll(html, Placeholder(Name), v.name);
    var body := ReplaceAll(body, Placeholder(Email), v.email);
    var body := ReplaceAll(body, Placeholder(UnsubscribeUrl), v.unsubscribeUrl);
    var body := ReplaceAll(body, Placeholder(TrackingPixelUrl), v.trackingUrl);
    ReplaceAll(body, Placeholder(InviteUrl), v.inviteUrl)
  }

  /** html.EscapeString. */
  function Escaped(s: string): string {
    if s == "" then "" else EscapedChar(s[0]) + Escaped(s[1..])
  }

  function EscapedChar(c: char): string {
    if c == '<' then "&lt;" else if c == '>' then "&gt;" else if c == '&' then "&amp;"
    else if c == '\'' then "&#39;" else if c == '"' then "&#34;" else [c]
  }

  // --- Templates as text and placeholders ---

  datatype Part = Text(text: string) | Hole(slot: Slot)

  function Source(parts: seq<Part>): string {
    if parts == [] then ""
    else (match parts[0] case Text(t) => t case Hole(s) => Placeholder(s)) + Source(parts[1..])
  }

  /** One simultaneous substitution. */
  function Filled(parts: seq<Part>, v: Values): string {
    if parts == [] then ""
    else (match parts[0] case Text(t) => t case Hole(s) => Value(v, s)) + Filled(parts[1..], v)
  }

  /** Wherever the text stands, a pass over this placeholder finds nothing that begins in it. */
  predicate Inert(p: Slot, t: string) {
    forall i :: 0 <= i < |t| ==> !(Placeholder(p) <= t[i..]) && !(t[i..] <= Placeholder(p))
  }

  predicate TextsInert(parts: seq<Part>, p: Slot) {
    forall i :: 0 <= i < |parts| && parts[i].Text? ==> Inert(p, parts[i].text)
  }

  predicate InertParts(parts: seq<Part>) {
    forall p: Slot :: TextsInert(parts, p)
  }

  /** The position of a slot's pass. */
  function Rank(s: Slot): nat {
    match s case Name => 0 case Email => 1 case UnsubscribeUrl => 2 case TrackingPixelUrl => 3 case InviteUrl => 4
  }

  const ORDER := [Name, Email, UnsubscribeUrl, TrackingPixelUrl, InviteUrl]

  /** No pass after the slot's own finds anything that begins in the value. */
  predicate Harmless(s: Slot, x: string) {
    forall p: Slot :: Rank(s) < Rank(p) ==> Inert(p, x)
  }

  predicate HarmlessValues(v: Values) {
    forall s: Slot :: Harmless(s, Value(v, s))
  }

  // --- One pass ---

  lemma OneCopied(s: string, target: string, value: string)
    requires s != "" && target != "" && !(target <= s)
    ensures ReplaceAll(s, target, value) == [s[0]] + ReplaceAll(s[1..], target, value)
  {
    if |s| < |target| {
      assert ReplaceAll(s[1..], target, value) == s[1..];
    }
  }

  /** Where no occurrence starts in a, a is copied. */
  lemma {:induction false} Copied(a: string, rest: string, target: string, value: string)
    requires target != ""
    requires forall i :: 0 <= i < |a| ==> !(target <= (a + rest)[i..])
    ensures ReplaceAll(a + rest, target, value) == a + ReplaceAll(rest, target, value)
  {
    hide ReplaceAll;
    if a == "" {
      assert a + rest == rest;
    } else {
      var s := a + rest;
      assert s[1..] == a[1..] + rest && s[0..] == s;
      forall i | 0 <= i < |a[1..]|
        ensures !(target <= (a[1..] + rest)[i..])
      {
        assert s[1..][i..] == s[i + 1..];
      }
      OneCopied(s, target, value);
      Copied(a[1..], rest, target, value);
      assert a == [a[0]] + a[1..];
    }
  }

  /** Inert text starts no placeholder, whatever follows it. */
  lemma InertStartsNone(t: string, rest: string, s: Slot)
    requires Inert(s, t)
    ensures forall i :: 0 <= i < |t| ==> !(Placeholder(s) <= (t + rest)[i..])
  {
    hide Placeholder;
    forall i | 0 <= i < |t|
      ensures !(Placeholder(s) <= (t + rest)[i..])
    {
      assert (t + rest)[i..] == t[i..] + rest;
      PrefixOfSum(Placeholder(s), t[i..], rest);
    }
  }

  lemma PrefixOfSum(p: string, a: string, b: string)
    ensures p <= a + b ==> p <= a || a <= p
  {
    assert |p| <= |a| ==> (a + b)[..|p|] == a[..|p|];
    assert |a| <= |p| && p <= a + b ==> p[..|a|] == (a + b)[..|a|] == a;
  }

  /** Only the beginning of a placeholder looks like one, and there each is different. */
  lemma OnlyOpensOnce(p: Slot)
    ensures Placeholder(p)[0] == '{' && Placeholder(p)[1] == '{' && Placeholder(p)[2] != '{'
    ensures forall i :: 2 <= i < |Placeholder(p)| ==> Placeholder(p)[i] != '{'
    ensures forall s :: s != p ==> Placeholder(s)[3] != Placeholder(p)[3]
  {
  }

  /** The rest of a placeholder is inert. */
  lemma RestIsInert(p: Slot, k: nat, s: Slot)
    requires 0 < k <= |Placeholder(p)|
    ensures Inert(s, Placeholder(p)[k..])
  {
    OnlyOpensOnce(p);
    OnlyOpensOnce(s);
    hide Placeholder;
    var t := Placeholder(p)[k..];
    forall i | 0 <= i < |t|
      ensures !(Placeholder(s) <= t[i..]) && !(t[i..] <= Placeholder(s))
    {
      assert t[i..][0] == Placeholder(p)[k + i];
      assert k + i == 1 ==> |t[i..]| > 1 && t[i..][1] == Placeholder(p)[2];
    }
  }

  /** A placeholder starts no other placeholder, whatever follows it. */
  lemma OtherStartsNone(p: Slot, rest: string, s: Slot)
    requires p != s
    ensures forall i :: 0 <= i < |Placeholder(p)| ==> !(Placeholder(s) <= (Placeholder(p) + rest)[i..])
  {
    OnlyOpensOnce(p);
    OnlyOpensOnce(s);
    hide Placeholder;
    var a := Placeholder(p);
    forall i | 0 <= i < |a|
      ensures !(Placeholder(s) <= (a + rest)[i..])
    {
      var u := (a + rest)[i..];
      assert u[0] == a[i] && (i == 0 ==> u[3] == a[3]) && (i == 1 ==> u[1] == a[2]);
    }
  }

  /** Writes one value into its holes. */
  function Put(parts: seq<Part>, s: Slot, value: string): seq<Part> {
    if parts == [] then []
    else [if parts[0] == Hole(s) then Text(value) else parts[0]] + Put(parts[1..], s, value)
  }

  lemma {:induction false} PassPuts(parts: seq<Part>, s: Slot, value: string)
    requires TextsInert(parts, s)
    ensures ReplaceAll(Source(parts), Placeholder(s), value) == Source(Put(parts, s, value))
  {
    if parts != [] {
      var first, rest := parts[0], Source(parts[1..]);
      assert TextsInert(parts[1..], s);
      hide Inert;
      PassPuts(parts[1..], s, value);
      if first == Hole(s) {
        hide TextsInert;
        var whole := Placeholder(s) + rest;
        assert whole[|Placeholder(s)|..] == rest && Placeholder(s) <= whole;
      } else {
        var a := if first.Hole? then Placeholder(first.slot) else first.text;
        if first.Hole? {
          OtherStartsNone(first.slot, rest, s);
        } else {
          InertStartsNone(first.text, rest, s);
        }
        hide Placeholder, ReplaceAll, TextsInert;
        Copied(a, rest, Placeholder(s), value);
      }
    }
  }

  // --- Five passes ---

  /** The passes from the n-th on. */
  function PassesFrom(body: string, v: Values, n: nat): string
    requires n <= 5
    decreases 5 - n
  {
    if n == 5 then body
    else PassesFrom(ReplaceAll(body, Placeholder(ORDER[n]), Value(v, ORDER[n])), v, n + 1)
  }

  lemma PersonalizedIsPasses(html: string, v: Values)
    ensures Personalized(html, v) == PassesFrom(html, v, 0)
  {
    hide ReplaceAll, Placeholder;
    var b1 := ReplaceAll(html, Placeholder(Name), v.name);
    var b2 := ReplaceAll(b1, Placeholder(Email), v.email);
    var b3 := ReplaceAll(b2, Placeholder(UnsubscribeUrl), v.unsubscribeUrl);
    var b4 := ReplaceAll(b3, Placeholder(TrackingPixelUrl), v.trackingUrl);
    assert PassesFrom(html, v, 0) == PassesFrom(b1, v, 1) == PassesFrom(b2, v, 2) == PassesFrom(b3, v, 3)
        == PassesFrom(b4, v, 4);
  }

  /** The template after the first n passes. */
  function Partly(parts: seq<Part>, v: Values, n: nat): (r: seq<Part>)
    ensures |r| == |parts|
  {
    if parts == [] then []
    else
      [if parts[0].Hole? && Rank(parts[0].slot) < n then Text(Value(v, parts[0].slot)) else parts[0]]
      + Partly(parts[1..], v, n)
  }

  lemma {:induction false} PartlyIsInert(parts: seq<Part>, v: Values, n: nat)
    requires n < 5 && InertParts(parts)
    requires forall q: Slot :: Rank(q) < n ==> Harmless(q, Value(v, q))
    ensures TextsInert(Partly(parts, v, n), ORDER[n])
  {
    hide Inert;
    if parts != [] {
      var s := ORDER[n];
      assert Rank(s) == n;
      forall p: Slot
        ensures TextsInert(parts[1..], p)
      {
        assert TextsInert(parts, p);
      }
      PartlyIsInert(parts[1..], v, n);
      assert TextsInert(parts, s);
      var first := Partly(parts, v, n)[0];
      assert first.Text? ==> Inert(s, first.text);
    }
  }

  lemma {:induction false} PutIsPartly(parts: seq<Part>, v: Values, n: nat)
    requires n < 5
    ensures Put(Partly(parts, v, n), ORDER[n], Value(v, ORDER[n])) == Partly(parts, v, n + 1)
  {
    if parts != [] {
      PutIsPartly(parts[1..], v, n);
      assert forall s: Slot :: Rank(s) == n <==> s == ORDER[n];
    }
  }

  lemma {:induction false} NothingPut(parts: seq<Part>, v: Values)
    ensures Partly(parts, v, 0) == parts
  {
    if parts != [] {
      NothingPut(parts[1..], v);
    }
  }

  lemma {:induction false} AllPut(parts: seq<Part>, v: Values)
    ensures Source(Partly(parts, v, 5)) == Filled(parts, v)
  {
    if parts != [] {
      AllPut(parts[1..], v);
    }
  }

  /** The first n passes fill their holes, if the values before the last of them are harmless. */
  lemma {:induction false} FirstPasses(parts: seq<Part>, v: Values, n: nat)
    requires n <= 5 && InertParts(parts)
    requires forall q: Slot :: Rank(q) + 1 < n ==> Harmless(q, Value(v, q))
    ensures PassesFrom(Source(parts), v, 0) == PassesFrom(Source(Partly(parts, v, n)), v, n)
  {
    hide ReplaceAll, Placeholder, Source, Partly, Put, Harmless, InertParts, TextsInert;
    if n == 0 {
      NothingPut(parts, v);
    } else {
      FirstPasses(parts, v, n - 1);
      PartlyIsInert(parts, v, n - 1);
      PassPuts(Partly(parts, v, n - 1), ORDER[n - 1], Value(v, ORDER[n - 1]));
      PutIsPartly(parts, v, n - 1);
    }
  }

  /**
   * For every template of inert text and placeholders and all harmless values, the five passes are one simultaneous
   * substitution.
   */
  lemma PassesAreSimultaneous(parts: seq<Part>, v: Values)
    requires InertParts(parts) && HarmlessValues(v)
    ensures Personalized(Source(parts), v) == Filled(parts, v)
  {
    hide Source, Filled, InertParts, Harmless, ReplaceAll, Partly, Personalized;
    PersonalizedIsPasses(Source(parts), v);
    FirstPasses(parts, v, 5);
    AllPut(parts, v);
  }

  // --- Nothing less will do ---

  /** Replacing by nothing shortens exactly the texts with an occurrence. */
  lemma {:induction false} NothingShortens(s: string, target: string)
    requires target != ""
    ensures |ReplaceAll(s, target, "")| <= |s|
    ensures |ReplaceAll(s, target, "")| == |s| ==>
      ReplaceAll(s, target, "") == s && forall i :: 0 <= i < |s| ==> !(target <= s[i..])
    decreases |s|
  {
    if |s| >= |target| {
      if target <= s {
        NothingShortens(s[|target|..], target);
      } else {
        NothingShortens(s[1..], target);
        assert s == [s[0]] + s[1..];
        forall i | 0 <= i < |s| && |ReplaceAll(s, target, "")| == |s|
          ensures !(target <= s[i..])
        {
          assert i > 0 ==> s[i..] == s[1..][i - 1..];
        }
      }
    }
  }

  /** Passes that write nothing change exactly the bodies with one of their placeholders. */
  lemma {:induction false} EmptyPasses(body: string, v: Values, n: nat)
    requires n <= 5 && forall q: Slot :: n <= Rank(q) ==> Value(v, q) == ""
    ensures |PassesFrom(body, v, n)| <= |body|
    ensures |PassesFrom(body, v, n)| == |body| ==>
      forall q: Slot, i :: n <= Rank(q) && 0 <= i < |body| ==> !(Placeholder(q) <= body[i..])
    decreases 5 - n
  {
    hide ReplaceAll, Placeholder;
    if n < 5 {
      var p := ORDER[n];
      assert Rank(p) == n && forall q: Slot :: Rank(q) == n <==> q == p;
      NothingShortens(body, Placeholder(p));
      EmptyPasses(ReplaceAll(body, Placeholder(p), ""), v, n + 1);
    }
  }

  function Silent(s: Slot, x: string): (v: Values)
    ensures Value(v, s) == x && forall q: Slot :: q != s ==> Value(v, q) == ""
  {
    var V := (q: Slot) => if q == s then x else "";
    Values(V(Name), V(Email), V(UnsubscribeUrl), V(TrackingPixelUrl), V(InviteUrl))
  }

  /** What follows a text that is not inert to make up the placeholder that begins in it. */
  function Completion(p: Slot, t: string, i: nat): string
    requires i < |t|
  {
    if Placeholder(p) <= t[i..] then "" else Placeholder(p)[(if |t| - i <= |Placeholder(p)| then |t| - i else 0)..]
  }

  lemma Completed(p: Slot, t: string, i: nat)
    requires i < |t| && (Placeholder(p) <= t[i..] || t[i..] <= Placeholder(p))
    ensures Placeholder(p) <= (t + Completion(p, t, i))[i..]
    ensures forall q: Slot :: Inert(q, Completion(p, t, i))
  {
    hide Placeholder, Inert;
    assert (t + Completion(p, t, i))[i..] == t[i..] + Completion(p, t, i);
    if Placeholder(p) <= t[i..] {
      NothingIsInert();
      assert t[i..] + "" == t[i..];
    } else {
      var k := |t[i..]|;
      forall q: Slot
        ensures Inert(q, Placeholder(p)[k..])
      {
        RestIsInert(p, k, q);
      }
      assert t[i..] == Placeholder(p)[..k];
      assert Placeholder(p)[..k] + Placeholder(p)[k..] == Placeholder(p);
    }
  }

  lemma NothingIsInert()
    ensures forall q: Slot :: Inert(q, "")
  {
  }

  lemma HoleAndText(s: Slot, rest: string, v: Values)
    ensures Source(Partly([Hole(s), Text(rest)], v, Rank(s) + 1)) == Value(v, s) + rest
      == Filled([Hole(s), Text(rest)], v)
  {
    var parts := [Hole(s), Text(rest)];
    assert parts[1..] == [Text(rest)] && parts[1..][1..] == [];
    assert Partly(parts, v, Rank(s) + 1) == [Text(Value(v, s)), Text(rest)];
    assert [Text(Value(v, s)), Text(rest)][1..] == [Text(rest)];
    assert Source([Text(rest)]) == rest && Filled([Text(rest)], v) == rest;
  }

  /** A value in which a later placeholder begins is filled again in some template of inert text. */
  lemma HarmIsDone(s: Slot, x: string, p: Slot, i: nat)
    requires Rank(s) < Rank(p) && i < |x| && (Placeholder(p) <= x[i..] || x[i..] <= Placeholder(p))
    ensures
      var parts, v := [Hole(s), Text(Completion(p, x, i))], Silent(s, x);
      InertParts(parts) && Personalized(Source(parts), v) != Filled(parts, v)
  {
    hide Placeholder, Personalized, Source, Filled, PassesFrom, Partly, Completion, Inert, Silent;
    var rest, v := Completion(p, x, i), Silent(s, x);
    var parts := [Hole(s), Text(rest)];
    Completed(p, x, i);
    HoleAndText(s, rest, v);
    PersonalizedIsPasses(Source(parts), v);
    NoneBegins(v, s);
    FirstPasses(parts, v, Rank(s) + 1);
    EmptyPasses(x + rest, v, Rank(s) + 1);
  }

  lemma NoneBegins(v: Values, s: Slot)
    requires forall q: Slot :: q != s ==> Value(v, q) == ""
    ensures forall q: Slot :: q != s ==> Harmless(q, Value(v, q))
  {
    hide Placeholder;
  }

  /** Every template of inert text whose other values are harmless is filled as it should be. */
  ghost predicate FilledOnce(s: Slot, x: string) {
    forall parts: seq<Part>, v: Values ::
      InertParts(parts) && Value(v, s) == x && (forall q: Slot :: q != s ==> Harmless(q, Value(v, q))) ==>
      Personalized(Source(parts), v) == Filled(parts, v)
  }

  /**
   * The value of a slot is safe in every template if and only if it contains no placeholder of a later pass and does
   * not end in the beginning of one.
   */
  lemma FilledOnceExactly(s: Slot, x: string)
    ensures FilledOnce(s, x) <==> Harmless(s, x)
  {
    hide Personalized, Source, Filled, Placeholder, Silent;
    if Harmless(s, x) {
      hide Inert, InertParts, Harmless;
      forall parts: seq<Part>, v: Values
        | InertParts(parts) && Value(v, s) == x && (forall q: Slot :: q != s ==> Harmless(q, Value(v, q)))
        ensures Personalized(Source(parts), v) == Filled(parts, v)
      {
        PassesAreSimultaneous(parts, v);
      }
    } else {
      var p: Slot :| Rank(s) < Rank(p) && !Inert(p, x);
      var i :| 0 <= i < |x| && (Placeholder(p) <= x[i..] || x[i..] <= Placeholder(p));
      HarmIsDone(s, x, p, i);
      NoneBegins(Silent(s, x), s);
      hide Inert, InertParts, Harmless;
      assert !FilledOnce(s, x);
    }
  }

  /** Every template of this text and inert text is filled as it should be. */
  ghost predicate KeptAsText(t: string) {
    forall parts: seq<Part>, v: Values ::
      HarmlessValues(v)
      && (forall i :: 0 <= i < |parts| && parts[i].Text? && parts[i].text != t ==>
           forall p: Slot :: Inert(p, parts[i].text)) ==>
      Personalized(Source(parts), v) == Filled(parts, v)
  }

  lemma TwoTexts(t: string, rest: string, v: Values)
    ensures Source([Text(t), Text(rest)]) == t + rest == Filled([Text(t), Text(rest)], v)
  {
    var parts := [Text(t), Text(rest)];
    assert parts[1..] == [Text(rest)] && parts[1..][1..] == [];
    assert Source([Text(rest)]) == rest && Filled([Text(rest)], v) == rest;
  }

  /** The same for the text of a template: it is kept everywhere if and only if it is inert for every pass. */
  lemma KeptAsTextExactly(t: string)
    ensures KeptAsText(t) <==> forall p: Slot :: Inert(p, t)
  {
    hide Personalized, Source, Filled, Placeholder, Silent, HarmlessValues;
    if p: Slot :| !Inert(p, t) {
      var i :| 0 <= i < |t| && (Placeholder(p) <= t[i..] || t[i..] <= Placeholder(p));
      Completed(p, t, i);
      hide Inert;
      TextIsFilled(p, t, i, Completion(p, t, i));
      assert !KeptAsText(t);
    } else {
      hide Inert;
      forall parts: seq<Part>, v: Values
        | HarmlessValues(v)
          && (forall i :: 0 <= i < |parts| && parts[i].Text? && parts[i].text != t ==>
               forall p: Slot :: Inert(p, parts[i].text))
        ensures Personalized(Source(parts), v) == Filled(parts, v)
      {
        PassesAreSimultaneous(parts, v);
      }
    }
  }

  lemma TextIsFilled(p: Slot, t: string, i: nat, rest: string)
    requires i < |t| && Placeholder(p) <= (t + rest)[i..]
    ensures
      var parts, v := [Text(t), Text(rest)], Silent(Name, "");
      HarmlessValues(v) && Personalized(Source(parts), v) != Filled(parts, v)
  {
    hide Placeholder, Personalized, Source, Filled, PassesFrom, Silent;
    var v := Silent(Name, "");
    TwoTexts(t, rest, v);
    PersonalizedIsPasses(t + rest, v);
    EmptyPasses(t + rest, v, 0);
  }

  // --- Escaping ---

  predicate Plain(p: string) {
    forall i :: 0 <= i < |p| ==> p[i] !in "<>&'\""
  }

  /** Plain text is a prefix of an escaped string, or the other way round, just as before escaping. */
  lemma {:induction false} PrefixEscaped(p: string, s: string)
    requires Plain(p)
    ensures p <= Escaped(s) <==> p <= s
    ensures Escaped(s) <= p <==> s <= p
  {
    if p != "" && s != "" {
      var e := Escaped(s);
      assert e == EscapedChar(s[0]) + Escaped(s[1..]);
      if s[0] in "<>&'\"" {
        assert e[0] == '&' && p[0] != '&' && p[0] != s[0];
      } else {
        PrefixEscaped(p[1..], s[1..]);
        assert e == [s[0]] + Escaped(s[1..]);
        assert s == [s[0]] + s[1..] && p == [p[0]] + p[1..] && e[1..] == Escaped(s[1..]);
        hide Escaped;
        assert p <= e <==> p[0] == e[0] && p[1..] <= e[1..];
        assert e <= p <==> p[0] == e[0] && e[1..] <= p[1..];
        assert p <= s <==> p[0] == s[0] && p[1..] <= s[1..];
        assert s <= p <==> p[0] == s[0] && s[1..] <= p[1..];
      }
    } else if s == "" {
    } else {
      assert |Escaped(s)| > 0;
    }
  }

  /** What a browser shows for escaped text: html.UnescapeString for the five escapes. */
  function Unescaped(s: string): string {
    if s == "" then ""
    else if "&lt;" <= s then "<" + Unescaped(s[4..])
    else if "&gt;" <= s then ">" + Unescaped(s[4..])
    else if "&amp;" <= s then "&" + Unescaped(s[5..])
    else if "&#39;" <= s then "'" + Unescaped(s[5..])
    else if "&#34;" <= s then "\"" + Unescaped(s[5..])
    else [s[0]] + Unescaped(s[1..])
  }

  lemma LessShown(rest: string)
    ensures Unescaped("&lt;" + rest) == "<" + Unescaped(rest)
  {
    assert ("&lt;" + rest)[4..] == rest;
  }

  lemma GreaterShown(rest: string)
    ensures Unescaped("&gt;" + rest) == ">" + Unescaped(rest)
  {
    var s := "&gt;" + rest;
    assert s[1] == 'g' && "&lt;"[1] == 'l';
    assert s[4..] == rest;
  }

  lemma AmpersandShown(rest: string)
    ensures Unescaped("&amp;" + rest) == "&" + Unescaped(rest)
  {
    var s := "&amp;" + rest;
    assert s[1] == 'a' && "&lt;"[1] == 'l' && "&gt;"[1] == 'g';
    assert s[5..] == rest;
  }

  lemma ApostropheShown(rest: string)
    ensures Unescaped("&#39;" + rest) == "'" + Unescaped(rest)
  {
    var s := "&#39;" + rest;
    assert s[1] == '#' && "&lt;"[1] == 'l' && "&gt;"[1] == 'g' && "&amp;"[1] == 'a';
    assert s[5..] == rest;
  }

  lemma QuoteShown(rest: string)
    ensures Unescaped("&#34;" + rest) == "\"" + Unescaped(rest)
  {
    var s := "&#34;" + rest;
    assert s[1] == '#' && "&lt;"[1] == 'l' && "&gt;"[1] == 'g' && "&amp;"[1] == 'a' && s[3] == '4' && "&#39;"[3] == '9';
    assert s[5..] == rest;
  }

  lemma PlainShown(c: char, rest: string)
    requires c != '&'
    ensures Unescaped([c] + rest) == [c] + Unescaped(rest)
  {
    var s := [c] + rest;
    assert s[0] == c && s[1..] == rest;
  }

  lemma ShownOne(c: char, rest: string)
    ensures Unescaped(EscapedChar(c) + rest) == [c] + Unescaped(rest)
  {
    hide Unescaped;
    LessShown(rest);
    GreaterShown(rest);
    AmpersandShown(rest);
    ApostropheShown(rest);
    QuoteShown(rest);
    if c !in "<>&'\"" {
      PlainShown(c, rest);
    }
  }

  /** Escaped text shows as it was and opens no tag, entity or attribute of its own. */
  lemma {:induction false} EscapingShows(s: string)
    ensures Unescaped(Escaped(s)) == s
    ensures forall i :: 0 <= i < |Escaped(s)| ==> Escaped(s)[i] !in "<>'\""
  {
    if s != "" {
      EscapingShows(s[1..]);
      ShownOne(s[0], Escaped(s[1..]));
      OneIsSafe(s[0]);
      assert s == [s[0]] + s[1..];
      hide Unescaped, EscapedChar;
    }
  }

  lemma OneIsSafe(c: char)
    ensures forall i :: 0 <= i < |EscapedChar(c)| ==> EscapedChar(c)[i] !in "<>'\""
  {
  }

  lemma InertSplits(p: Slot, a: string, b: string)
    requires a != "" && forall i :: 0 < i < |a| ==> a[i] != '{'
    ensures Inert(p, a + b) <==> !(Placeholder(p) <= a + b) && !(a + b <= Placeholder(p)) && Inert(p, b)
  {
    OnlyOpensOnce(p);
    hide Placeholder;
    var s := a + b;
    assert s[0..] == s;
    forall i | |a| <= i < |s|
      ensures s[i..] == b[i - |a|..]
    {
    }
    forall j | 0 <= j < |b|
      ensures b[j..] == s[|a| + j..]
    {
    }
    forall i | 0 < i < |a|
      ensures !(Placeholder(p) <= s[i..]) && !(s[i..] <= Placeholder(p))
    {
      assert s[i..][0] == a[i];
    }
  }

  lemma EscapedIs(s: string)
    ensures s == "" ==> Escaped(s) == ""
    ensures s != "" ==> Escaped(s) == EscapedChar(s[0]) + Escaped(s[1..])
  {
    hide EscapedChar;
  }

  lemma OnlyBracesOpen(c: char)
    ensures EscapedChar(c) != "" && forall i :: 0 < i < |EscapedChar(c)| ==> EscapedChar(c)[i] != '{'
  {
  }

  lemma PlaceholderIsPlain(p: Slot)
    ensures Plain(Placeholder(p))
  {
  }

  /** Escaping leaves braces alone: a value is inert before it if and only if it is inert after. */
  lemma {:induction false} EscapingKeepsInert(p: Slot, s: string)
    ensures Inert(p, Escaped(s)) <==> Inert(p, s)
  {
    hide Placeholder, Escaped, EscapedChar, Inert, Plain;
    EscapedIs(s);
    if s != "" {
      EscapingKeepsInert(p, s[1..]);
      PlaceholderIsPlain(p);
      OnlyBracesOpen(s[0]);
      PrefixEscaped(Placeholder(p), s);
      assert s == [s[0]] + s[1..];
      InertSplits(p, EscapedChar(s[0]), Escaped(s[1..]));
      InertSplits(p, [s[0]], s[1..]);
    }
  }

  /** So escaping makes no value harmful and none harmless. */
  lemma EscapingKeepsHarmless(s: Slot, x: string)
    ensures Harmless(s, Escaped(x)) <==> Harmless(s, x)
  {
    hide Inert, Escaped;
    forall p: Slot
      ensures Inert(p, Escaped(x)) <==> Inert(p, x)
    {
      EscapingKeepsInert(p, x);
    }
  }

  lemma {:induction false} PlainIsEscaped(s: string)
    requires Plain(s)
    ensures Escaped(s) == s
  {
    if s != "" {
      PlainIsEscaped(s[1..]);
      assert EscapedChar(s[0]) == [s[0]];
    }
  }

  /** For example, a contact whose name spells a placeholder has it filled in by a later pass. */
  lemma HarmfulNamesAreFilledAgain(v: Values)
    requires v.name == Escaped(Placeholder(Email)) && Harmless(Email, v.email)
    ensures
      var parts := [Hole(Name)];
      Personalized(Source(parts), v) == v.email && Filled(parts, v) == Placeholder(Email)
  {
    hide Placeholder, ReplaceAll, Inert, Source, Filled, Escaped, Personalized, PassesFrom, Plain;
    PlaceholderIsPlain(Email);
    PlainIsEscaped(Placeholder(Email));
    OneHole(Name, v);
    OneHole(Email, v);
    PassOverItself(Name, v.name);
    PassOverItself(Email, v.email);
    PassOverInert(v.email, UnsubscribeUrl, v.unsubscribeUrl);
    PassOverInert(v.email, TrackingPixelUrl, v.trackingUrl);
    PassOverInert(v.email, InviteUrl, v.inviteUrl);
    FivePasses(v);
  }

  lemma FivePasses(v: Values)
    requires v.name == Placeholder(Email)
    requires ReplaceAll(Placeholder(Name), Placeholder(Name), v.name) == v.name
    requires ReplaceAll(Placeholder(Email), Placeholder(Email), v.email) == v.email
    requires ReplaceAll(v.email, Placeholder(UnsubscribeUrl), v.unsubscribeUrl) == v.email
    requires ReplaceAll(v.email, Placeholder(TrackingPixelUrl), v.trackingUrl) == v.email
    requires ReplaceAll(v.email, Placeholder(InviteUrl), v.inviteUrl) == v.email
    ensures Personalized(Placeholder(Name), v) == v.email
  {
    hide Placeholder, ReplaceAll;
  }

  lemma OneHole(s: Slot, v: Values)
    ensures Source([Hole(s)]) == Placeholder(s) && Filled([Hole(s)], v) == Value(v, s)
  {
    hide Placeholder;
  }

  lemma PassOverInert(t: string, s: Slot, value: string)
    requires Inert(s, t)
    ensures ReplaceAll(t, Placeholder(s), value) == t
  {
    PassPuts([Text(t)], s, value);
    hide ReplaceAll, Placeholder;
    assert Source([Text(t)]) == t;
    assert Put([Text(t)], s, value) == [Text(t)];
  }

  lemma PassOverItself(s: Slot, value: string)
    ensures ReplaceAll(Placeholder(s), Placeholder(s), value) == value
  {
    PassPuts([Hole(s)], s, value);
    hide ReplaceAll, Placeholder;
    OneHole(s, Values("", "", "", "", ""));
    assert Put([Hole(s)], s, value) == [Text(value)];
    assert Source([Text(value)]) == value;
  }

  function Pixel(url: string): string {
    "<img src=\"" + url + "\" width=\"1\" height=\"1\" alt=\"\" style=\"display:none\">"
  }

  /**
   * The body of one mail, as the send loop builds it: whatever the template and the values, and one simultaneous
   * substitution whenever the text is inert and the values, as they are before escaping, are harmless.
   */
  method Render(html: string, name: string, email: string, unsubscribeUrl: string, trackingUrl: string,
                inviteUrl: string)
    returns (body: string)
    ensures
      var b1 := ReplaceAll(html, "{{.Name}}", Escaped(name));
      var b2 := ReplaceAll(b1, "{{.Email}}", Escaped(email));
      var b3 := ReplaceAll(b2, "{{.UnsubscribeURL}}", unsubscribeUrl);
      var b4 := ReplaceAll(b3, "{{.TrackingPixelURL}}", trackingUrl);
      var b5 := ReplaceAll(b4, "{{.InviteURL}}", inviteUrl);
      body == b5 + "<img src=\"" + trackingUrl + "\" width=\"1\" height=\"1\" alt=\"\" style=\"display:none\">"
    ensures HarmlessValues(Values(name, email, unsubscribeUrl, trackingUrl, inviteUrl)) ==>
      forall parts :: html == Source(parts) && InertParts(parts) ==>
        body == Filled(parts, Values(Escaped(name), Escaped(email), unsubscribeUrl, trackingUrl, inviteUrl))
                + Pixel(trackingUrl)
  {
    Placeholders();
    PixelIs(trackingUrl);
    hide ReplaceAll, Placeholder, Escaped, Source, Filled, InertParts, Harmless, Pixel;
    body := html;
    body := ReplaceAll(body, Placeholder(Name), Escaped(name));
    body := ReplaceAll(body, Placeholder(Email), Escaped(email));
    body := ReplaceAll(body, Placeholder(UnsubscribeUrl), unsubscribeUrl);
    body := ReplaceAll(body, Placeholder(TrackingPixelUrl), trackingUrl);
    body := ReplaceAll(body, Placeholder(InviteUrl), inviteUrl);
    body := body + Pixel(trackingUrl);
    ghost var raw := Values(name, email, unsubscribeUrl, trackingUrl, inviteUrl);
    ghost var v := Values(Escaped(name), Escaped(email), unsubscribeUrl, trackingUrl, inviteUrl);
    assert body == Personalized(html, v) + Pixel(trackingUrl);
    hide Personalized;
    forall parts | html == Source(parts) && InertParts(parts) && HarmlessValues(raw)
      ensures Personalized(html, v) == Filled(parts, v)
    {
      EscapedValues(raw);
      PassesAreSimultaneous(parts, v);
    }
  }

  lemma Placeholders()
    ensures Placeholder(Name) == "{{.Name}}" && Placeholder(Email) == "{{.Email}}"
    ensures Placeholder(UnsubscribeUrl) == "{{.UnsubscribeURL}}" && Placeholder(InviteUrl) == "{{.InviteURL}}"
    ensures Placeholder(TrackingPixelUrl) == "{{.TrackingPixelURL}}"
  {
  }

  lemma PixelIs(url: string)
    ensures Pixel(url) == "<img src=\"" + url + "\" width=\"1\" height=\"1\" alt=\"\" style=\"display:none\">"
  {
  }

  lemma EscapedValues(v: Values)
    ensures HarmlessValues(v.(name := Escaped(v.name), email := Escaped(v.email))) <==> HarmlessValues(v)
  {
    hide Harmless, Escaped;
    EscapingKeepsHarmless(Name, v.name);
    EscapingKeepsHarmless(Email, v.email);
    var w := v.(name := Escaped(v.name), email := Escaped(v.email));
    assert forall s: Slot :: Harmless(s, Value(w, s)) <==> Harmless(s, Value(v, s));
  }
}
