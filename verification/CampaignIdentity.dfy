/**
 Public campaign identities (app/core/campaign_identity.py) and the search box that accepts them
 (app/core/campaign_search.py). Decimal digits outside ASCII, which the date pattern also
 accepts, are a parameter.
 */
module CampaignIdentity {
  import opened Base

  datatype Kind =
    | LEAD | CALLBACK | TRANSFER | LIST | ACTIVATION | IMPORT_BATCH | AGENT | CALL | Unsupported(name: string)

  datatype Error =
    | InvalidCampaignNumber | InvalidCampaignCode | InvalidSequence | AgentExtensionRequired | CallDateRequired
    | UnsupportedIdentityType | SequenceExhausted

  datatype Issued = Issued(campaign: int, kind: Kind, sequence: int, publicId: string, alias: Option<string>)

  datatype Result = Done(value: Issued) | Failed(error: Error)

  // ---------------------------------------------------------------- decimal numbers

  function DigitChar(d: nat): char
    requires d < 10
  {
    '0' + d as char
  }

  predicate AsciiDigit(c: char) {
    '0' <= c <= '9'
  }

  predicate AllDigits(s: string) {
    forall i | 0 <= i < |s| :: AsciiDigit(s[i])
  }

  function Decimal(n: nat): (s: string)
    ensures s != "" && AllDigits(s)
    ensures n >= 100 ==> |s| >= 3
  {
    if n < 10 then [DigitChar(n)] else Decimal(n / 10) + [DigitChar(n % 10)]
  }

  function Zeros(n: nat): string {
    seq(n, _ => '0')
  }

  /** {n:0{width}d}. */
  function Padded(n: nat, width: nat): string {
    var s := Decimal(n);
    if |s| >= width then s else Zeros(width - |s|) + s
  }

  function Signed(n: int): string {
    if n < 0 then "-" + Decimal(-n) else Decimal(n)
  }

  function Number(s: string): int {
    if s == "" then 0 else Number(s[..|s| - 1]) * 10 + (s[|s| - 1] as int - '0' as int)
  }

  lemma {:induction false} DecimalReadsBack(n: nat)
    ensures Number(Decimal(n)) == n
  {
    if n < 10 {
      assert Decimal(n)[..0] == "";
    } else {
      var s := Decimal(n);
      assert s[..|s| - 1] == Decimal(n / 10);
      DecimalReadsBack(n / 10);
    }
  }

  lemma {:induction false} LeadingZeros(n: nat, s: string)
    ensures Number(Zeros(n) + s) == Number(s)
    decreases n + |s|
  {
    var z := Zeros(n) + s;
    if s != "" {
      assert z[..|z| - 1] == Zeros(n) + s[..|s| - 1];
      LeadingZeros(n, s[..|s| - 1]);
    } else if n > 0 {
      assert z[..|z| - 1] == Zeros(n - 1) + "";
      LeadingZeros(n - 1, "");
    } else {
      assert z == "";
    }
  }

  lemma PaddedReadsBack(n: nat, width: nat)
    ensures Number(Padded(n, width)) == n && AllDigits(Padded(n, width)) && Padded(n, width) != ""
  {
    DecimalReadsBack(n);
    var s := Decimal(n);
    if |s| < width {
      LeadingZeros(width - |s|, s);
    }
  }

  lemma SignedReadsBack(a: int, b: int)
    requires Signed(a) == Signed(b)
    ensures a == b
  {
    SignShows(a);
    SignShows(b);
    DecimalReadsBack(if a < 0 then -a else a);
    DecimalReadsBack(if b < 0 then -b else b);
  }

  lemma SignShows(n: int)
    ensures Signed(n) != "" && (Signed(n)[0] == '-' <==> n < 0)
    ensures n < 0 ==> Signed(n)[1..] == Decimal(-n)
  {
    assert n >= 0 ==> AsciiDigit(Decimal(n)[0]);
  }

  // ---------------------------------------------------------------- format_identity

  function TokenOf(kind: Kind): string {
    match kind
    case LEAD => "L"
    case CALLBACK => "CB"
    case TRANSFER => "XF"
    case LIST => "LST"
    case ACTIVATION => "ACT"
    case IMPORT_BATCH => "IMP"
    case AGENT => "A"
    case CALL => "C"
    case Unsupported(_) => ""
  }

  function WidthOf(kind: Kind): nat {
    match kind
    case LEAD => 8
    case CALLBACK => 8
    case TRANSFER => 8
    case LIST => 4
    case _ => 3
  }

  function PowerOfTen(n: nat): nat {
    if n == 0 then 1 else 10 * PowerOfTen(n - 1)
  }

  predicate ValidCode(code: string) {
    |code| == 3 && forall i | 0 <= i < |code| :: 'A' <= code[i] <= 'Z'
  }

  predicate ValidDate(date: string, foreign: set<char>) {
    |date| == 8 && forall i | 0 <= i < |date| :: AsciiDigit(date[i]) || date[i] in foreign
  }

  /** The part of a public id after its campaign number and token. */
  function Tail(kind: Kind, sequence: int, date: string, extension: int): string
    requires sequence > 0
  {
    if kind.AGENT? then Signed(extension)
    else if kind.CALL? then date + "-" + Padded(sequence, 6)
    else Padded(sequence, WidthOf(kind))
  }

  function PublicId(campaign: int, kind: Kind, tail: string): string
    requires campaign > 0
  {
    Decimal(campaign) + "-" + (TokenOf(kind) + "-" + tail)
  }

  function Format(campaign: int, code: string, kind: Kind, sequence: int, date: Option<string>, extension: Option<int>,
                  foreign: set<char>): Result {
    if campaign <= 0 || campaign % 100 != 0 then Failed(InvalidCampaignNumber)
    else if !ValidCode(code) then Failed(InvalidCampaignCode)
    else if sequence <= 0 then Failed(InvalidSequence)
    else if kind.AGENT? then
      if extension.None? then Failed(AgentExtensionRequired)
      else Done(Issued(campaign, kind, sequence, PublicId(campaign, kind, Tail(kind, sequence, "", extension.value)),
          None))
    else if kind.CALL? then
      if date.None? || !ValidDate(date.value, foreign) then Failed(CallDateRequired)
      else Done(Issued(campaign, kind, sequence, PublicId(campaign, kind, Tail(kind, sequence, date.value, 0)), None))
    else if kind.Unsupported? then Failed(UnsupportedIdentityType)
    else if sequence >= PowerOfTen(WidthOf(kind)) then Failed(SequenceExhausted)
    else
      var id := PublicId(campaign, kind, Tail(kind, sequence, "", 0));
      Done(Issued(campaign, kind, sequence, id, if kind.LEAD? then Some(code + "-" + id) else None))
  }

  /** An identity is issued exactly for a positive campaign number in the hundreds, a code of three capitals, a positive
      sequence and what its type asks for: an extension, an eight-digit date, or a sequence that still fits. */
  lemma IssuedExactly(campaign: int, code: string, kind: Kind, sequence: int, date: Option<string>,
                      extension: Option<int>, foreign: set<char>)
    ensures Format(campaign, code, kind, sequence, date, extension, foreign).Done? <==>
            && campaign > 0 && campaign % 100 == 0 && sequence > 0
            && |code| == 3 && (forall i | 0 <= i < |code| :: 'A' <= code[i] <= 'Z')
            && match kind
               case AGENT => extension.Some?
               case CALL =>
                 && date.Some? && |date.value| == 8
                 && forall i | 0 <= i < 8 :: '0' <= date.value[i] <= '9' || date.value[i] in foreign
               case LIST => sequence < 1_0000
               case ACTIVATION => sequence < 1000
               case IMPORT_BATCH => sequence < 1000
               case Unsupported(_) => false
               case _ => sequence < 1_0000_0000
  {
    assert PowerOfTen(3) == 1000 && PowerOfTen(4) == 1_0000;
    assert PowerOfTen(6) == 100 * PowerOfTen(4) && PowerOfTen(8) == 100 * PowerOfTen(6);
    hide PublicId, Tail;
  }

  lemma {:induction false} DecimalLength(n: nat, width: nat)
    requires n < PowerOfTen(width) && width > 0
    ensures |Decimal(n)| <= width
  {
    if n >= 10 {
      DecimalLength(n / 10, width - 1);
    }
  }

  /** The sequence of an issued identity is printed at full width: eight digits for leads, callbacks and transfers, four
      for lists, three for activations and import batches - and reads back as itself. */
  lemma FixedWidth(kind: Kind, sequence: int)
    requires sequence > 0 && !kind.AGENT? && !kind.CALL? && !kind.Unsupported? && sequence < PowerOfTen(WidthOf(kind))
    ensures var tail := Tail(kind, sequence, "", 0);
            && Number(tail) == sequence && AllDigits(tail)
            && |tail| == if kind.LIST? then 4 else if kind.ACTIVATION? || kind.IMPORT_BATCH? then 3 else 8
  {
    DecimalLength(sequence, WidthOf(kind));
    PaddedReadsBack(sequence, WidthOf(kind));
  }

  // ---------------------------------------------------------------- printing is injective

  lemma {:induction false} FirstDashSplits(a: string, b: string, a': string, b': string)
    requires '-' !in a && '-' !in a' && a + "-" + b == a' + "-" + b'
    ensures a == a' && b == b'
    decreases |a|
  {
    var s := a + "-" + b;
    DashFirst(a, b);
    DashFirst(a', b');
    if a == "" {
      assert s[1..] == b && (a' + "-" + b')[1..] == b';
    } else {
      assert s[0] == a[0] == a'[0];
      assert s[1..] == a[1..] + "-" + b == a'[1..] + "-" + b';
      FirstDashSplits(a[1..], b, a'[1..], b');
      assert a == [a[0]] + a[1..] && a' == [a'[0]] + a'[1..];
    }
  }

  lemma DashFirst(a: string, b: string)
    requires '-' !in a
    ensures (a + "-" + b)[0] == '-' <==> a == ""
  {
  }

  lemma TokensDiffer(a: Kind, b: Kind)
    requires !a.Unsupported? && !b.Unsupported? && TokenOf(a) == TokenOf(b)
    ensures a == b
  {
    assert |"L"| == 1 && |"CB"| == 2 && |"LST"| == 3;
    assert "L"[0] == 'L' && "A"[0] == 'A' && "C"[0] == 'C';
    assert "CB"[0] == 'C' && "XF"[0] == 'X';
    assert "LST"[0] == 'L' && "ACT"[0] == 'A' && "IMP"[0] == 'I';
  }

  lemma NoDash(campaign: int, kind: Kind)
    requires campaign > 0
    ensures '-' !in Decimal(campaign) && '-' !in TokenOf(kind)
  {
  }

  lemma PublicIdSplits(campaign: int, kind: Kind, tail: string, campaign': int, kind': Kind, tail': string)
    requires campaign > 0 && campaign' > 0 && !kind.Unsupported? && !kind'.Unsupported?
    requires PublicId(campaign, kind, tail) == PublicId(campaign', kind', tail')
    ensures campaign == campaign' && kind == kind' && tail == tail'
  {
    NoDash(campaign, kind);
    NoDash(campaign', kind');
    hide Decimal, TokenOf;
    FirstDashSplits(Decimal(campaign), TokenOf(kind) + "-" + tail, Decimal(campaign'), TokenOf(kind') + "-" + tail');
    FirstDashSplits(TokenOf(kind), tail, TokenOf(kind'), tail');
    DecimalReadsBack(campaign);
    DecimalReadsBack(campaign');
    TokensDiffer(kind, kind');
  }

  lemma TailsDiffer(kind: Kind, sequence: int, date: string, extension: int, sequence': int, date': string,
                    extension': int)
    requires sequence > 0 && sequence' > 0 && (kind.CALL? ==> |date| == 8 && |date'| == 8)
    requires Tail(kind, sequence, date, extension) == Tail(kind, sequence', date', extension')
    ensures if kind.AGENT? then extension == extension' else sequence == sequence' && (kind.CALL? ==> date == date')
  {
    hide Padded, Signed;
    if kind.AGENT? {
      SignedReadsBack(extension, extension');
    } else if kind.CALL? {
      var t, t' := date + "-" + Padded(sequence, 6), date' + "-" + Padded(sequence', 6);
      assert t[..8] == date && t'[..8] == date' && t[9..] == Padded(sequence, 6) && t'[9..] == Padded(sequence', 6);
      PaddedReadsBack(sequence, 6);
      PaddedReadsBack(sequence', 6);
    } else {
      PaddedReadsBack(sequence, WidthOf(kind));
      PaddedReadsBack(sequence', WidthOf(kind));
    }
  }

  /** Two issues never share a public id unless they agree on campaign, type and sequence - for an agent on campaign and
      extension, for a call also on the date. */
  lemma PublicIdsAreInjective(
    campaign: int, code: string, kind: Kind, sequence: int, date: Option<string>, extension: Option<int>,
    campaign': int, code': string, kind': Kind, sequence': int, date': Option<string>, extension': Option<int>,
        foreign: set<char>)
    requires var r, r' := Format(campaign, code, kind, sequence, date, extension, foreign),
               Format(campaign', code', kind', sequence', date', extension', foreign);
             r.Done? && r'.Done? && r.value.publicId == r'.value.publicId
    ensures campaign == campaign' && kind == kind'
    ensures if kind.AGENT? then extension == extension' else sequence == sequence' && (kind.CALL? ==> date == date')
  {
    hide PublicId, Tail;
    var d, d' := if kind.CALL? then date.value else "", if kind'.CALL? then date'.value else "";
    var x, x' := if kind.AGENT? then extension.value else 0, if kind'.AGENT? then extension'.value else 0;
    PublicIdSplits(campaign, kind, Tail(kind, sequence, d, x), campaign', kind', Tail(kind', sequence', d', x'));
    TailsDiffer(kind, sequence, d, x, sequence', d', x');
  }

  /** Lead aliases are as telling as the ids they carry, and name the campaign code as well. */
  lemma AliasesAreInjective(code: string, id: string, code': string, id': string)
    requires ValidCode(code) && ValidCode(code') && code + "-" + id == code' + "-" + id'
    ensures code == code' && id == id'
  {
    FirstDashSplits(code, id, code', id');
  }

  // ---------------------------------------------------------------- the search pattern

  const ALIAS_TOKENS: set<string> := {"L", "CB", "XF", "LST", "ACT", "IMP"}
  const ID_TOKENS: set<string> := {"L", "A", "C", "CB", "XF", "LST", "ACT", "IMP"}

  predicate Digit(c: char, foreign: set<char>) {
    AsciiDigit(c) || c in foreign
  }

  predicate Digits(s: string, foreign: set<char>) {
    forall i | 0 <= i < |s| :: Digit(s[i], foreign)
  }

  predicate Letters(s: string) {
    forall i | 0 <= i < |s| :: 'A' <= s[i] <= 'Z'
  }

  predicate TailChar(c: char) {
    'A' <= c <= 'Z' || AsciiDigit(c) || c == '-'
  }

  predicate TailPattern(s: string) {
    s != "" && forall i | 0 <= i < |s| :: TailChar(s[i])
  }

  /** A numbered id: at least three digits, one of the tokens, a tail. */
  ghost predicate IdPattern(s: string, tokens: set<string>, foreign: set<char>) {
    exists number, token, tail :: IsId(s, number, token, tail, tokens, foreign)
  }

  predicate IsId(s: string, number: string, token: string, tail: string, tokens: set<string>, foreign: set<char>) {
    s == number + "-" + (token + "-" + tail) && |number| >= 3 && Digits(number, foreign) && token in tokens
        && TailPattern(tail)
  }

  /** The six alternatives of the search pattern. */
  ghost predicate Alias(s: string, foreign: set<char>) {
    || (3 <= |s| <= 6 && Digits(s, foreign))
    || (|s| == 3 && Letters(s))
    || (|s| == 6 && Letters(s[..3]) && Digits(s[3..], foreign))
    || (|s| >= 11 && s[..4] == "CMP-" && Digits(s[4..|s| - 4], foreign) && s[|s| - 4] == '-' && Letters(s[|s| - 3..]))
    || (|s| >= 4 && Letters(s[..3]) && s[3] == '-' && IdPattern(s[4..], ALIAS_TOKENS, foreign))
    || IdPattern(s, ID_TOKENS, foreign)
  }

  function Upper(s: string): string {
    seq(|s|, i requires 0 <= i < |s| => if 'a' <= s[i] <= 'z' then s[i] - 'a' + 'A' else s[i])
  }

  predicate Blank(c: char) {
    c == ' ' || '\t' <= c <= '\r'
  }

  function Strip(s: string): string
    decreases |s|
  {
    if s == "" then s else if Blank(s[0]) then Strip(s[1..]) else if Blank(s[|s| - 1]) then Strip(s[..|s| - 1]) else s
  }

  /** normalize_alias: the canonical alias, or None if the pattern rejects it. */
  ghost function NormalizeAlias(value: string, foreign: set<char>): Option<string> {
    var normalized := Upper(Strip(value));
    if Alias(normalized, foreign) then Some(normalized) else None
  }

  predicate Plain(s: string) {
    forall i | 0 <= i < |s| :: TailChar(s[i])
  }

  lemma PlainIsCanonical(s: string)
    requires Plain(s)
    ensures Upper(Strip(s)) == s
  {
    if s != "" {
      assert TailChar(s[0]) && TailChar(s[|s| - 1]);
      assert Strip(s) == s;
    }
    assert Upper(s) == s;
  }

  lemma TailIsPlain(kind: Kind, sequence: int, date: string, extension: int)
    requires sequence > 0 && (kind.CALL? ==> AllDigits(date))
    ensures TailPattern(Tail(kind, sequence, date, extension))
  {
    PaddedReadsBack(sequence, if kind.CALL? then 6 else WidthOf(kind));
    hide Padded, Decimal, Number, WidthOf;
  }

  lemma TokensAreListed(kind: Kind)
    requires !kind.Unsupported?
    ensures TokenOf(kind) in ID_TOKENS && Plain(TokenOf(kind)) && TokenOf(LEAD) in ALIAS_TOKENS
  {
  }

  /** An id built from a plain tail is accepted as it stands. */
  lemma IdIsSearchable(campaign: int, kind: Kind, tail: string, foreign: set<char>)
    requires campaign >= 100 && !kind.Unsupported? && TailPattern(tail)
    ensures NormalizeAlias(PublicId(campaign, kind, tail), foreign) == Some(PublicId(campaign, kind, tail))
    ensures kind.LEAD? ==> IdPattern(PublicId(campaign, kind, tail), ALIAS_TOKENS, foreign)
    ensures Plain(PublicId(campaign, kind, tail))
  {
    TokensAreListed(kind);
    var id := PublicId(campaign, kind, tail);
    hide TokenOf;
    assert IsId(id, Decimal(campaign), TokenOf(kind), tail, ID_TOKENS, foreign);
    assert kind.LEAD? ==> IsId(id, Decimal(campaign), TokenOf(kind), tail, ALIAS_TOKENS, foreign);
    assert Plain(id);
    PlainIsCanonical(id);
  }

  lemma HundredsAtLeast(campaign: int)
    requires campaign > 0 && campaign % 100 == 0
    ensures campaign >= 100
  {
  }

  /** Every issued id, and every lead alias, is accepted unchanged by the search box - for a call, when its date is
      written in ASCII digits. */
  lemma IssuedIdsAreSearchable(
    campaign: int, code: string, kind: Kind, sequence: int, date: Option<string>, extension: Option<int>,
        foreign: set<char>)
    requires var r := Format(campaign, code, kind, sequence, date, extension, foreign); r.Done?
    requires kind.CALL? ==> AllDigits(date.value)
    ensures var id := Format(campaign, code, kind, sequence, date, extension, foreign).value;
            && NormalizeAlias(id.publicId, foreign) == Some(id.publicId)
            && (id.alias.Some? ==> NormalizeAlias(id.alias.value, foreign) == id.alias)
  {
    HundredsAtLeast(campaign);
    var d, x := if kind.CALL? then date.value else "", if kind.AGENT? then extension.value else 0;
    var tail := Tail(kind, sequence, d, x);
    TailIsPlain(kind, sequence, d, x);
    IdIsSearchable(campaign, kind, tail, foreign);
    hide PublicId, Tail, IdPattern, NormalizeAlias, Plain, PowerOfTen, TailPattern, ValidDate, AllDigits;
    if kind.LEAD? {
      AliasIsSearchable(code, PublicId(campaign, kind, tail), foreign);
    }
  }

  lemma AliasIsSearchable(code: string, id: string, foreign: set<char>)
    requires ValidCode(code) && Plain(id) && IdPattern(id, ALIAS_TOKENS, foreign)
    ensures NormalizeAlias(code + "-" + id, foreign) == Some(code + "-" + id)
  {
    hide IdPattern;
    var alias := code + "-" + id;
    assert alias[..3] == code && alias[4..] == id;
    assert Plain(alias);
    PlainIsCanonical(alias);
  }

  lemma IdSplitsOneWay(number: string, token: string, tail: string, s: string, foreign: set<char>)
    requires '-' !in number && '-' !in token && s == number + "-" + (token + "-" + tail)
    requires forall c | c in foreign :: c > '\U{7f}'
    ensures IdPattern(s, ID_TOKENS, foreign) ==> TailPattern(tail)
  {
    if IdPattern(s, ID_TOKENS, foreign) {
      var n, t, r :| IsId(s, n, t, r, ID_TOKENS, foreign);
      assert '-' !in n;
      assert '-' !in t;
      FirstDashSplits(number, token + "-" + tail, n, t + "-" + r);
      FirstDashSplits(token, tail, t, r);
    }
  }

  /** The exact condition for calls: a date with a digit outside ASCII passes the date check, but its id is rejected. */
  lemma CallIdsAreSearchableExactly(campaign: int, code: string, sequence: int, date: string, foreign: set<char>)
    requires forall c | c in foreign :: c > '\U{7f}'
    requires Format(campaign, code, CALL, sequence, Some(date), None, foreign).Done?
    ensures var id := Format(campaign, code, CALL, sequence, Some(date), None, foreign).value.publicId;
            NormalizeAlias(id, foreign) == Some(id) <==> AllDigits(date)
  {
    if AllDigits(date) {
      IssuedIdsAreSearchable(campaign, code, CALL, sequence, Some(date), None, foreign);
    } else {
      ForeignDatesAreRejected(campaign, sequence, date, foreign);
    }
  }

  /** The shape of a call's id: it starts and ends with ASCII digits and is not one of the short aliases. */
  lemma CallIdShape(campaign: int, sequence: int, date: string)
    requires campaign > 0 && sequence > 0 && |date| == 8
    ensures var id := PublicId(campaign, CALL, Tail(CALL, sequence, date, 0));
            && id == Decimal(campaign) + "-" + ("C" + "-" + (date + "-" + Padded(sequence, 6)))
            && |id| > 6 && AsciiDigit(id[0]) && AsciiDigit(id[|id| - 1])
  {
    var number, seqNo := Decimal(campaign), Padded(sequence, 6);
    PaddedReadsBack(sequence, 6);
    hide Decimal, Padded;
    var id := PublicId(campaign, CALL, Tail(CALL, sequence, date, 0));
    assert id[0] == number[0] && id[|id| - 1] == seqNo[|seqNo| - 1];
  }

  /** Nothing in a call's id is changed by stripping and upper-casing, whatever digits its date uses. */
  lemma CallIdIsCanonical(campaign: int, sequence: int, date: string, foreign: set<char>)
    requires forall c | c in foreign :: c > '\U{7f}'
    requires campaign > 0 && sequence > 0 && ValidDate(date, foreign)
    ensures var id := PublicId(campaign, CALL, Tail(CALL, sequence, date, 0)); Upper(Strip(id)) == id
  {
    var id := PublicId(campaign, CALL, Tail(CALL, sequence, date, 0));
    CallIdShape(campaign, sequence, date);
    PaddedReadsBack(sequence, 6);
    hide Decimal, Padded, PublicId, Tail;
    assert Strip(id) == id;
    hide Strip;
    assert forall i | 0 <= i < |id| :: !('a' <= id[i] <= 'z');
    assert Upper(id) == id;
  }

  lemma OnlyAsId(s: string, foreign: set<char>)
    requires |s| > 6 && AsciiDigit(s[0]) && Alias(s, foreign)
    ensures IdPattern(s, ID_TOKENS, foreign)
  {
    hide IdPattern, Digits;
  }

  lemma ForeignDatesAreRejected(campaign: int, sequence: int, date: string, foreign: set<char>)
    requires forall c | c in foreign :: c > '\U{7f}'
    requires campaign > 0 && sequence > 0 && ValidDate(date, foreign) && !AllDigits(date)
    ensures NormalizeAlias(PublicId(campaign, CALL, Tail(CALL, sequence, date, 0)), foreign) == None
  {
    var tail := Tail(CALL, sequence, date, 0);
    var id := PublicId(campaign, CALL, tail);
    CallIdShape(campaign, sequence, date);
    CallIdIsCanonical(campaign, sequence, date, foreign);
    NoDash(campaign, CALL);
    assert !TailPattern(tail) by {
      hide Decimal, Padded;
      var i :| 0 <= i < |date| && !AsciiDigit(date[i]);
      assert tail[i] == date[i];
    }
    assert id == Decimal(campaign) + "-" + ("C" + "-" + tail);
    hide Decimal, Padded, PublicId, Tail, Upper, Strip, Alias, IdPattern, TailPattern, ValidDate, AllDigits;
    IdSplitsOneWay(Decimal(campaign), "C", tail, id, foreign);
    if Alias(id, foreign) {
      OnlyAsId(id, foreign);
    }
  }

  const ARABIC_INDIC_ONE := '\U{661}'

  /** A concrete one: call 1 of campaign 100 on a date written in Arabic-Indic digits is issued, and its id is not
      searchable. */
  lemma ForeignDateExample()
    ensures var date, foreign := seq(8, _ => ARABIC_INDIC_ONE), {ARABIC_INDIC_ONE};
            var issued := Format(100, "ABC", CALL, 1, Some(date), None, foreign);
            issued.Done? && NormalizeAlias(issued.value.publicId, foreign) == None
  {
    var date, foreign := seq(8, _ => ARABIC_INDIC_ONE), {ARABIC_INDIC_ONE};
    assert !AsciiDigit(date[0]);
    ForeignDatesAreRejected(100, 1, date, foreign);
    hide PublicId, Tail, NormalizeAlias;
  }
}
