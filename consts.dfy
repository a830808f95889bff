/** The bot's configuration: its constants, and the validators run on the
    bot token and on the admin chat id when the configuration is built. The
    three regular expressions are modelled as deterministic recognisers that
    return the pieces they matched, each paired with the rendering of those
    pieces back into text. */
module Consts {
  import opened Wrappers
  import opened Text

  const MaxMessageLength: nat := 4090
  const Version: string := "v1"

  const TokenError: string := "Invalid Telegram bot token format"
  const ChatIdError: string := "Invalid Admin chat_id format"

  /** A usable message size (a slice step of 0 would make `range` fail). */
  type MessageLength = n: nat | n > 0 witness 4090

  datatype Config = Config(
    token: string,
    adminName: string,
    adminChatId: string,
    clientChatId: string,
    version: string,
    maxMessageLength: MessageLength)

  // ---------------------------------------------------------------- shared pieces

  /** Number of leading ASCII digits. */
  function DigitRun(s: string): (n: nat)
    ensures n <= |s| && AllDigits(s[..n])
    ensures n < |s| ==> !IsDigit(s[n])
    decreases |s|
  {
    if |s| > 0 && IsDigit(s[0]) then
      var n := 1 + DigitRun(s[1..]);
      assert s[..n] == [s[0]] + s[1..][..n - 1];
      n
    else 0
  }

  lemma DigitRunOfDigits(a: string, b: string)
    requires AllDigits(a) && (|b| == 0 || !IsDigit(b[0]))
    ensures DigitRun(a + b) == |a|
    decreases |a|
  {
    if |a| > 0 {
      DigitRunOfDigits(a[1..], b);
      assert (a + b)[1..] == a[1..] + b;
    }
  }

  /** Python's `$` also matches just before one final newline. */
  function NewlineSuffix(nl: bool): string {
    if nl then "\n" else ""
  }

  /** Split an optional final newline off `s`. */
  function SplitFinalNewline(s: string): (r: (string, bool))
    ensures r.0 + NewlineSuffix(r.1) == s
  {
    if |s| > 0 && s[|s| - 1] == '\n' then (s[..|s| - 1], true) else (s, false)
  }

  lemma SplitFinalNewlineOf(body: string, nl: bool)
    requires '\n' !in body
    ensures SplitFinalNewline(body + NewlineSuffix(nl)) == (body, nl)
  {
    if !nl {
      assert body + NewlineSuffix(nl) == body;
      if |body| > 0 {
        assert body[|body| - 1] in body;
      }
    } else {
      assert (body + "\n")[..|body|] == body;
    }
  }

  // ---------------------------------------------------------------- bot token: ^\d+:[A-Za-z0-9_-]+$

  predicate IsTokenChar(ch: char) {
    ('A' <= ch <= 'Z') || ('a' <= ch <= 'z') || IsDigit(ch) || ch == '_' || ch == '-'
  }

  predicate AllTokenChars(s: string) {
    forall i :: 0 <= i < |s| ==> IsTokenChar(s[i])
  }

  /** The pieces of a bot token: the numeric bot id, the secret, and whether a final newline follows. */
  datatype TokenParts = TokenParts(botId: string, secret: string, newline: bool)

  predicate WellFormedToken(t: TokenParts) {
    |t.botId| > 0 && AllDigits(t.botId) && |t.secret| > 0 && AllTokenChars(t.secret)
  }

  function RenderToken(t: TokenParts): string {
    t.botId + ":" + t.secret + NewlineSuffix(t.newline)
  }

  /** `re.match(r"^\d+:[A-Za-z0-9_-]+$", s)`, returning what it matched. */
  function ParseToken(s: string): (r: Option<TokenParts>)
    ensures r.Some? ==> WellFormedToken(r.value) && RenderToken(r.value) == s
  {
    var n := DigitRun(s);
    if n == 0 || n == |s| || s[n] != ':' then None
    else
      var (body, nl) := SplitFinalNewline(s[n + 1..]);
      if |body| > 0 && AllTokenChars(body) then
        assert s == s[..n] + ":" + s[n + 1..];
        Some(TokenParts(s[..n], body, nl))
      else None
  }

  predicate TokenMatches(s: string) {
    ParseToken(s).Some?
  }

  /** Digits, a colon and anything after: the digit run stops at the colon. */
  lemma ColonSplit(a: string, b: string)
    requires |a| > 0 && AllDigits(a)
    ensures var s := a + ":" + b;
            DigitRun(s) == |a| && |a| < |s| && s[|a|] == ':' && s[..|a|] == a && s[|a| + 1..] == b
  {
    DigitRunOfDigits(a, ":" + b);
    assert a + ":" + b == a + (":" + b);
  }

  lemma TokenCharsNoNewline(s: string)
    requires AllTokenChars(s)
    ensures '\n' !in s
  {
    forall i | 0 <= i < |s| ensures s[i] != '\n' {
      assert IsTokenChar(s[i]);
    }
  }

  /** Every well-formed token is recognised, with exactly its own pieces. */
  lemma ParseRenderToken(t: TokenParts)
    requires WellFormedToken(t)
    ensures ParseToken(RenderToken(t)) == Some(t)
  {
    ColonSplit(t.botId, t.secret + NewlineSuffix(t.newline));
    assert RenderToken(t) == t.botId + ":" + (t.secret + NewlineSuffix(t.newline));
    TokenCharsNoNewline(t.secret);
    SplitFinalNewlineOf(t.secret, t.newline);
  }

  lemma TokenMatchesIff(s: string)
    ensures TokenMatches(s) <==> exists t :: WellFormedToken(t) && RenderToken(t) == s
  {
    if exists t :: WellFormedToken(t) && RenderToken(t) == s {
      var t :| WellFormedToken(t) && RenderToken(t) == s;
      ParseRenderToken(t);
    }
  }

  /** `validate_and_process_token`: the value itself when it matches, else the error. */
  function ValidateToken(value: string): (r: Result<string, string>)
    ensures r.Ok? <==> exists t :: WellFormedToken(t) && RenderToken(t) == value
    ensures r.Ok? ==> r.value == value
    ensures r.Err? ==> r.error == TokenError
  {
    TokenMatchesIff(value);
    if TokenMatches(value) then Ok(value) else Err(TokenError)
  }

  // ---------------------------------------------------------------- chat id: ^-?\d+$

  datatype ChatIdParts = ChatIdParts(negative: bool, digits: string, newline: bool)

  predicate WellFormedChatId(c: ChatIdParts) {
    |c.digits| > 0 && AllDigits(c.digits)
  }

  function RenderChatId(c: ChatIdParts): string {
    (if c.negative then "-" else "") + c.digits + NewlineSuffix(c.newline)
  }

  /** `re.match(r"^-?\d+$", s)`, returning what it matched. */
  function ParseChatId(s: string): (r: Option<ChatIdParts>)
    ensures r.Some? ==> WellFormedChatId(r.value) && RenderChatId(r.value) == s
  {
    var neg := |s| > 0 && s[0] == '-';
    var rest := if neg then s[1..] else s;
    var (body, nl) := SplitFinalNewline(rest);
    if |body| > 0 && AllDigits(body) then
      assert neg ==> s == "-" + rest;
      Some(ChatIdParts(neg, body, nl))
    else None
  }

  predicate ChatIdMatches(s: string) {
    ParseChatId(s).Some?
  }

  lemma ParseRenderChatId(c: ChatIdParts)
    requires WellFormedChatId(c)
    ensures ParseChatId(RenderChatId(c)) == Some(c)
  {
    var s := RenderChatId(c);
    forall i | 0 <= i < |c.digits| ensures c.digits[i] != '\n' {
      assert IsDigit(c.digits[i]);
    }
    SplitFinalNewlineOf(c.digits, c.newline);
    if c.negative {
      assert s[1..] == c.digits + NewlineSuffix(c.newline);
    } else {
      assert s == c.digits + NewlineSuffix(c.newline);
      assert IsDigit(c.digits[0]);
    }
  }

  lemma ChatIdMatchesIff(s: string)
    ensures ChatIdMatches(s) <==> exists c :: WellFormedChatId(c) && RenderChatId(c) == s
  {
    if exists c :: WellFormedChatId(c) && RenderChatId(c) == s {
      var c :| WellFormedChatId(c) && RenderChatId(c) == s;
      ParseRenderChatId(c);
    }
  }

  /** `validate_and_process_tg_chat_id`: the value itself when it matches, else the error. */
  function ValidateChatId(value: string): (r: Result<string, string>)
    ensures r.Ok? <==> exists c :: WellFormedChatId(c) && RenderChatId(c) == value
    ensures r.Ok? ==> r.value == value
    ensures r.Err? ==> r.error == ChatIdError
  {
    ChatIdMatchesIff(value);
    if ChatIdMatches(value) then Ok(value) else Err(ChatIdError)
  }

  /** `str(chat.id)` of any chat always has the admin chat id format. */
  lemma IntToStringIsChatId(n: int)
    ensures ChatIdMatches(IntToString(n))
  {
    var s := IntToString(n);
    var c := if n < 0 then ChatIdParts(true, s[1..], false) else ChatIdParts(false, s, false);
    assert RenderChatId(c) == s by {
      if n < 0 { assert s == "-" + s[1..]; } else { assert s + "" == s; }
    }
    ParseRenderChatId(c);
  }

  // ---------------------------------------------------------------- phone: ^(?:\+7|8)[- ]?(?:\d{3}[- ]?\d{3}[- ]?\d{2}[- ]?\d{2})$

  datatype PhonePrefix = PlusSeven | Eight

  function PrefixText(p: PhonePrefix): string {
    match p
    case PlusSeven => "+7"
    case Eight => "8"
  }

  /** One digit group with the optional `-` or space before it. */
  datatype Group = Group(sep: Option<char>, digits: string)

  const PhoneGroupSizes: seq<nat> := [3, 3, 2, 2]

  predicate IsSeparator(ch: char) {
    ch == '-' || ch == ' '
  }

  predicate GroupFits(g: Group, size: nat) {
    |g.digits| == size && AllDigits(g.digits) && (g.sep.Some? ==> IsSeparator(g.sep.value))
  }

  /** Each group has its size's worth of digits and at most one separator. */
  predicate GroupsFit(gs: seq<Group>, sizes: seq<nat>) {
    |gs| == |sizes| && forall i :: 0 <= i < |gs| ==> GroupFits(gs[i], sizes[i])
  }

  predicate WellFormedGroups(gs: seq<Group>, sizes: seq<nat>) {
    GroupsFit(gs, sizes) && forall i :: 0 <= i < |sizes| ==> sizes[i] > 0
  }

  function SepText(sep: Option<char>): string {
    match sep
    case Some(c) => [c]
    case None => ""
  }

  function RenderGroups(gs: seq<Group>): string
    decreases |gs|
  {
    if |gs| == 0 then "" else SepText(gs[0].sep) + gs[0].digits + RenderGroups(gs[1..])
  }

  lemma GroupsFitCons(g: Group, gs: seq<Group>, sizes: seq<nat>)
    requires |sizes| > 0 && GroupFits(g, sizes[0]) && GroupsFit(gs, sizes[1..])
    ensures GroupsFit([g] + gs, sizes)
  {
  }

  lemma GroupsFitTail(gs: seq<Group>, sizes: seq<nat>)
    requires |gs| > 0 && WellFormedGroups(gs, sizes)
    ensures WellFormedGroups(gs[1..], sizes[1..]) && GroupFits(gs[0], sizes[0]) && sizes[0] > 0
  {
    forall i | 0 <= i < |gs| - 1 ensures GroupFits(gs[1..][i], sizes[1..][i]) {
      assert gs[1..][i] == gs[i + 1];
    }
  }

  lemma RenderGroupsUnfold(gs: seq<Group>, rest: string)
    requires |gs| > 0
    ensures RenderGroups(gs) + rest == SepText(gs[0].sep) + (gs[0].digits + (RenderGroups(gs[1..]) + rest))
  {
  }

  /** Putting a parsed group back in front rebuilds the parsed text. */
  lemma RenderConsRebuilds(s: string, sep: Option<char>, t: string, n: nat, gs: seq<Group>, rest: string)
    requires SepText(sep) + t == s && n <= |t| && RenderGroups(gs) + rest == t[n..]
    ensures RenderGroups([Group(sep, t[..n])] + gs) + rest == s
  {
    var g := Group(sep, t[..n]);
    assert ([g] + gs)[1..] == gs;
    RenderGroupsUnfold([g] + gs, rest);
    assert t[..n] + t[n..] == t;
  }

  /** `[- ]?`: take one separator off the front of `s` when there is one. */
  function SplitSeparator(s: string): (r: (Option<char>, string))
    ensures SepText(r.0) + r.1 == s
    ensures r.0.Some? ==> IsSeparator(r.0.value)
  {
    if |s| > 0 && IsSeparator(s[0]) then (Some(s[0]), s[1..]) else (None, s)
  }

  lemma SplitSeparatorOf(sep: Option<char>, t: string)
    requires sep.Some? ==> IsSeparator(sep.value)
    requires sep.None? ==> |t| == 0 || !IsSeparator(t[0])
    ensures SplitSeparator(SepText(sep) + t) == (sep, t)
  {
    if sep.Some? {
      assert (SepText(sep) + t)[1..] == t;
    } else {
      assert SepText(sep) + t == t;
    }
  }

  /** Recognise the digit groups of the given sizes at the front of `s`;
      returns the groups and what follows them. */
  function ParseGroups(s: string, sizes: seq<nat>): (r: Option<(seq<Group>, string)>)
    ensures r.Some? ==> GroupsFit(r.value.0, sizes) && RenderGroups(r.value.0) + r.value.1 == s
    decreases |sizes|
  {
    if |sizes| == 0 then Some(([], s))
    else
      var st := SplitSeparator(s);
      var t := st.1;
      var n := sizes[0];
      if |t| < n || !AllDigits(t[..n]) then None
      else
        var inner := ParseGroups(t[n..], sizes[1..]);
        if inner.None? then None
        else
          GroupsFitCons(Group(st.0, t[..n]), inner.value.0, sizes);
          RenderConsRebuilds(s, st.0, t, n, inner.value.0, inner.value.1);
          Some(([Group(st.0, t[..n])] + inner.value.0, inner.value.1))
  }

  lemma {:induction false} ParseRenderGroups(gs: seq<Group>, sizes: seq<nat>, rest: string)
    requires WellFormedGroups(gs, sizes)
    ensures ParseGroups(RenderGroups(gs) + rest, sizes) == Some((gs, rest))
    decreases |gs|
  {
    if |gs| > 0 {
      var g := gs[0];
      GroupsFitTail(gs, sizes);
      ParseRenderGroups(gs[1..], sizes[1..], rest);
      var tail := RenderGroups(gs[1..]) + rest;
      var t := g.digits + tail;
      RenderGroupsUnfold(gs, rest);
      assert IsDigit(t[0]) by { assert t[0] == g.digits[0]; }
      SplitSeparatorOf(g.sep, t);
      assert SplitSeparator(RenderGroups(gs) + rest) == (g.sep, t);
      assert |t| >= sizes[0];
      assert t[..sizes[0]] == g.digits;
      assert t[sizes[0]..] == tail;
      assert ParseGroups(t[sizes[0]..], sizes[1..]) == Some((gs[1..], rest));
      assert AllDigits(t[..sizes[0]]);
      assert |sizes| != 0;
      assert Group(g.sep, t[..sizes[0]]) == g;
      assert [g] + gs[1..] == gs;
    } else {
      assert RenderGroups(gs) + rest == rest;
    }
  }

  datatype PhoneParts = PhoneParts(prefix: PhonePrefix, groups: seq<Group>, newline: bool)

  predicate WellFormedPhone(p: PhoneParts) {
    WellFormedGroups(p.groups, PhoneGroupSizes)
  }

  function RenderPhone(p: PhoneParts): string {
    PrefixText(p.prefix) + RenderGroups(p.groups) + NewlineSuffix(p.newline)
  }

  function ParsePrefix(s: string): (r: Option<PhonePrefix>)
    ensures r.Some? ==> |PrefixText(r.value)| <= |s| && s[..|PrefixText(r.value)|] == PrefixText(r.value)
  {
    if |s| >= 2 && s[..2] == "+7" then Some(PlusSeven)
    else if |s| >= 1 && s[0] == '8' then
      assert s[..1] == "8";
      Some(Eight)
    else None
  }

  lemma PhoneRebuilds(s: string, p: PhonePrefix, gs: seq<Group>, tail: string, nl: bool)
    requires |PrefixText(p)| <= |s| && s[..|PrefixText(p)|] == PrefixText(p)
    requires RenderGroups(gs) + tail == s[|PrefixText(p)|..] && tail == NewlineSuffix(nl)
    ensures RenderPhone(PhoneParts(p, gs, nl)) == s
  {
    assert s[..|PrefixText(p)|] + s[|PrefixText(p)|..] == s;
  }

  /** What may follow the last group: nothing, or one final newline. */
  function FinalNewline(tail: string): (r: Option<bool>)
    ensures r.Some? <==> tail == "" || tail == "\n"
    ensures r.Some? ==> NewlineSuffix(r.value) == tail
  {
    if tail == "" then Some(false) else if tail == "\n" then Some(true) else None
  }

  /** `PHONE_PATTERN.match(s)`, returning what it matched. */
  function ParsePhone(s: string): (r: Option<PhoneParts>)
    ensures r.Some? ==> WellFormedPhone(r.value) && RenderPhone(r.value) == s
  {
    var pre := ParsePrefix(s);
    if pre.None? then None
    else
      var groups := ParseGroups(s[|PrefixText(pre.value)|..], PhoneGroupSizes);
      if groups.None? then None
      else
        var nl := FinalNewline(groups.value.1);
        if nl.None? then None
        else
          PhoneRebuilds(s, pre.value, groups.value.0, groups.value.1, nl.value);
          Some(PhoneParts(pre.value, groups.value.0, nl.value))
  }

  predicate PhoneMatches(s: string) {
    ParsePhone(s).Some?
  }

  /** A prefix is recognised in front of anything, and leaves exactly what follows it. */
  lemma ParsePrefixOf(p: PhonePrefix, body: string)
    ensures ParsePrefix(PrefixText(p) + body) == Some(p)
    ensures (PrefixText(p) + body)[|PrefixText(p)|..] == body
  {
    var s := PrefixText(p) + body;
    match p {
      case PlusSeven =>
        assert s[..2] == "+7";
      case Eight =>
        assert s[0] == '8';
    }
  }

  /** Every phone number built from a prefix and the four groups is recognised. */
  lemma ParseRenderPhone(p: PhoneParts)
    requires WellFormedPhone(p)
    ensures ParsePhone(RenderPhone(p)) == Some(p)
  {
    var body := RenderGroups(p.groups) + NewlineSuffix(p.newline);
    assert RenderPhone(p) == PrefixText(p.prefix) + body;
    ParsePrefixOf(p.prefix, body);
    ParseRenderGroups(p.groups, PhoneGroupSizes, NewlineSuffix(p.newline));
    assert FinalNewline(NewlineSuffix(p.newline)) == Some(p.newline);
  }

  /** A phone number matches exactly when it is a prefix and four groups, rendered. */
  lemma PhoneMatchesIff(s: string)
    ensures PhoneMatches(s) <==> exists p :: WellFormedPhone(p) && RenderPhone(p) == s
  {
    if exists p :: WellFormedPhone(p) && RenderPhone(p) == s {
      var p :| WellFormedPhone(p) && RenderPhone(p) == s;
      ParseRenderPhone(p);
    }
  }

  // ---------------------------------------------------------------- building the configuration

  /** `Config(...)` from the environment's strings: both validators run, and
      every failing field contributes its error, in field order. */
  function NewConfig(token: string, adminName: string, adminChatId: string, clientChatId: string)
    : (r: Result<Config, seq<string>>)
    ensures r.Ok? <==> TokenMatches(token) && ChatIdMatches(adminChatId)
    ensures r.Ok? ==> r.value == Config(token, adminName, adminChatId, clientChatId, Version, MaxMessageLength)
    ensures r.Err? ==>
              r.error == (if TokenMatches(token) then [] else [TokenError])
                         + (if ChatIdMatches(adminChatId) then [] else [ChatIdError])
  {
    var errors :=
      (match ValidateToken(token) case Ok(_) => [] case Err(e) => [e])
      + (match ValidateChatId(adminChatId) case Ok(_) => [] case Err(e) => [e]);
    if errors == [] then Ok(Config(token, adminName, adminChatId, clientChatId, Version, MaxMessageLength))
    else Err(errors)
  }
}
