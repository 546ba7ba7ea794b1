/** Lists kept as one comma-separated string: a monitor's notification channels and a
    plugin's recipient addresses. */
module CommaList {

  /** strings.Join(parts, ",") */
  function Join(parts: seq<string>): string {
    if parts == [] then ""
    else if |parts| == 1 then parts[0]
    else parts[0] + "," + Join(parts[1..])
  }

  /** The pieces of a string with one more character in front. */
  function Prepend(ch: char, parts: seq<string>): seq<string>
    requires parts != []
  {
    if ch == ',' then [""] + parts else [[ch] + parts[0]] + parts[1..]
  }

  /** strings.Split(s, ",") */
  function Split(s: string): (parts: seq<string>)
    ensures parts != []
  {
    if s == "" then [""] else Prepend(s[0], Split(s[1..]))
  }

  function ChannelsToString(channels: seq<string>): string {
    Join(channels)
  }

  function ChannelsFromString(s: string): seq<string> {
    if s == "" then [] else Split(s)
  }

  ghost predicate NoCommas(parts: seq<string>) {
    forall i | 0 <= i < |parts| :: ',' !in parts[i]
  }

  lemma {:induction false} JoinSplit(s: string)
    ensures Join(Split(s)) == s
  {
    if s != "" {
      var rest := Split(s[1..]);
      JoinSplit(s[1..]);
      if s[0] == ',' {
        assert ([""] + rest)[1..] == rest;
      } else {
        var parts := [[s[0]] + rest[0]] + rest[1..];
        assert parts[1..] == rest[1..];
      }
    }
  }

  lemma {:induction false} SplitHasNoCommas(s: string)
    ensures NoCommas(Split(s))
  {
    if s != "" {
      SplitHasNoCommas(s[1..]);
    }
  }

  lemma {:induction false} SplitOne(part: string)
    requires ',' !in part
    ensures Split(part) == [part]
  {
    if part != "" {
      SplitOne(part[1..]);
      assert part == [part[0]] + part[1..];
    }
  }

  lemma PrependConcat(ch: char, a: seq<string>, b: seq<string>)
    requires a != []
    ensures Prepend(ch, a + b) == Prepend(ch, a) + b
  {
    assert (a + b)[1..] == a[1..] + b;
  }

  lemma {:induction false} SplitConcat(a: string, b: string)
    ensures Split(a + "," + b) == Split(a) + Split(b)
  {
    var whole := a + "," + b;
    if a == "" {
      assert whole[1..] == b;
    } else {
      SplitConcat(a[1..], b);
      assert whole[1..] == a[1..] + "," + b;
      PrependConcat(a[0], Split(a[1..]), Split(b));
    }
  }

  lemma {:induction false} SplitJoin(parts: seq<string>)
    requires parts != [] && NoCommas(parts)
    ensures Split(Join(parts)) == parts
  {
    if |parts| == 1 {
      SplitOne(parts[0]);
    } else {
      SplitJoin(parts[1..]);
      SplitOne(parts[0]);
      SplitConcat(parts[0], Join(parts[1..]));
    }
  }

  /** Splitting a joined list yields the pieces of its elements. */
  lemma {:induction false} SplitOfJoin(parts: seq<string>, piece: string)
    requires parts != []
    ensures piece in Split(Join(parts)) <==> exists i | 0 <= i < |parts| :: piece in Split(parts[i])
  {
    if |parts| > 1 {
      var rest := parts[1..];
      SplitOfJoin(rest, piece);
      SplitConcat(parts[0], Join(rest));
      assert forall i | 0 <= i < |rest| :: rest[i] == parts[i + 1];
    }
  }

  /** What is stored survives being read and written back. */
  lemma StoredRoundTrip(s: string)
    ensures ChannelsToString(ChannelsFromString(s)) == s
  {
    JoinSplit(s);
  }

  lemma JoinSeveral(parts: seq<string>)
    requires |parts| > 1
    ensures Join(parts) != ""
  {
    assert |Join(parts)| >= 1;
  }

  /** A list of channels survives being stored exactly when none has a comma and the
      list is not that of one empty name. */
  lemma ChannelsRoundTrip(channels: seq<string>)
    ensures ChannelsFromString(ChannelsToString(channels)) == channels <==> NoCommas(channels) && channels != [""]
  {
    if |channels| > 1 {
      JoinSeveral(channels);
    }
    if Join(channels) != "" {
      SplitHasNoCommas(Join(channels));
      if NoCommas(channels) {
        SplitJoin(channels);
      }
    }
  }

  // Recipients

  /** unicode.IsSpace */
  predicate IsSpace(ch: char) {
    '\t' <= ch <= '\r' || ch == ' ' || ch == '\U{85}' || ch == '\U{A0}' || ch == '\U{1680}'
    || '\U{2000}' <= ch <= '\U{200A}' || ch == '\U{2028}' || ch == '\U{2029}' || ch == '\U{202F}'
    || ch == '\U{205F}' || ch == '\U{3000}'
  }

  /** The characters with the Unicode property White_Space. */
  lemma WhiteSpace(ch: char)
    ensures IsSpace(ch) <==> ch in {
      '\U{9}', '\U{A}', '\U{B}', '\U{C}', '\U{D}', '\U{20}', '\U{85}', '\U{A0}', '\U{1680}',
      '\U{2000}', '\U{2001}', '\U{2002}', '\U{2003}', '\U{2004}', '\U{2005}', '\U{2006}', '\U{2007}',
      '\U{2008}', '\U{2009}', '\U{200A}', '\U{2028}', '\U{2029}', '\U{202F}', '\U{205F}', '\U{3000}'}
  {
    assert IsSpace(ch) ==> ch as int in {
      0x9, 0xA, 0xB, 0xC, 0xD, 0x20, 0x85, 0xA0, 0x1680, 0x2000, 0x2001, 0x2002, 0x2003, 0x2004, 0x2005, 0x2006, 0x2007,
      0x2008, 0x2009, 0x200A, 0x2028, 0x2029, 0x202F, 0x205F, 0x3000};
  }

  predicate Trimmed(s: string) {
    s != "" ==> !IsSpace(s[0]) && !IsSpace(s[|s| - 1])
  }

  function TrimLeft(s: string): string {
    if s != "" && IsSpace(s[0]) then TrimLeft(s[1..]) else s
  }

  function TrimRight(s: string): string {
    if s != "" && IsSpace(s[|s| - 1]) then TrimRight(s[..|s| - 1]) else s
  }

  /** strings.TrimSpace */
  function TrimSpace(s: string): string {
    TrimRight(TrimLeft(s))
  }

  lemma {:induction false} TrimLeftKeeps(s: string)
    ensures var t := TrimLeft(s);
      && |t| <= |s| && t == s[|s| - |t|..]
      && (t != "" ==> !IsSpace(t[0]))
      && forall i | 0 <= i < |s| - |t| :: IsSpace(s[i])
  {
    if s != "" && IsSpace(s[0]) {
      var rest := s[1..];
      TrimLeftKeeps(rest);
      var t := TrimLeft(rest);
      assert t == s[|s| - |t|..] by {
        assert rest[|rest| - |t|..] == s[|s| - |t|..];
      }
      forall i | 0 <= i < |s| - |t|
        ensures IsSpace(s[i])
      {
        assert i > 0 ==> s[i] == rest[i - 1];
      }
    }
  }

  lemma {:induction false} TrimRightKeeps(s: string)
    ensures var t := TrimRight(s);
      && t <= s
      && (t != "" ==> !IsSpace(t[|t| - 1]))
      && forall i | |t| <= i < |s| :: IsSpace(s[i])
  {
    if s != "" && IsSpace(s[|s| - 1]) {
      TrimRightKeeps(s[..|s| - 1]);
    }
  }

  /** TrimSpace cuts off white space, all of it, and nothing else. */
  lemma TrimSpaceTrims(s: string) returns (i: nat, j: nat)
    ensures i <= j <= |s| && TrimSpace(s) == s[i..j] && Trimmed(TrimSpace(s))
    ensures forall k | 0 <= k < |s| && !(i <= k < j) :: IsSpace(s[k])
  {
    var left := TrimLeft(s);
    TrimLeftKeeps(s);
    TrimRightKeeps(left);
    i := |s| - |left|;
    j := i + |TrimSpace(s)|;
    forall k | j <= k < |s|
      ensures IsSpace(s[k])
    {
      assert s[k] == left[k - i];
    }
  }

  lemma TrimmedStays(s: string)
    requires Trimmed(s)
    ensures TrimSpace(s) == s
  {
  }

  /** The non-empty parts, trimmed, in order. */
  function Kept(parts: seq<string>): seq<string> {
    if parts == [] then []
    else (if TrimSpace(parts[0]) != "" then [TrimSpace(parts[0])] else []) + Kept(parts[1..])
  }

  function Recipients(raw: string): seq<string> {
    Kept(Split(raw))
  }

  /** A list that could have come out of Recipients. */
  ghost predicate Clean(addresses: seq<string>) {
    NoCommas(addresses) && forall i | 0 <= i < |addresses| :: addresses[i] != "" && Trimmed(addresses[i])
  }

  lemma {:induction false} KeptIsClean(parts: seq<string>)
    requires NoCommas(parts)
    ensures Clean(Kept(parts))
  {
    if parts != [] {
      KeptIsClean(parts[1..]);
      var i, j := TrimSpaceTrims(parts[0]);
      assert forall ch | ch in parts[0][i..j] :: ch in parts[0];
    }
  }

  lemma {:induction false} CleanIsKept(addresses: seq<string>)
    requires Clean(addresses)
    ensures Kept(addresses) == addresses
  {
    if addresses != [] {
      TrimmedStays(addresses[0]);
      CleanIsKept(addresses[1..]);
    }
  }

  lemma RecipientsAreClean(raw: string)
    ensures Clean(Recipients(raw))
  {
    SplitHasNoCommas(raw);
    KeptIsClean(Split(raw));
  }

  /** Exactly the clean lists survive being joined and parsed. */
  lemma RecipientsRoundTrip(addresses: seq<string>)
    ensures Recipients(Join(addresses)) == addresses <==> Clean(addresses)
  {
    RecipientsAreClean(Join(addresses));
    if Clean(addresses) && addresses != [] {
      SplitJoin(addresses);
      CleanIsKept(addresses);
    }
  }

  /** Parsing again what was parsed and joined changes nothing. */
  lemma ParsingIsIdempotent(raw: string)
    ensures Recipients(Join(Recipients(raw))) == Recipients(raw)
  {
    RecipientsAreClean(raw);
    RecipientsRoundTrip(Recipients(raw));
  }

  lemma {:induction false} KeptAppend(a: seq<string>, b: seq<string>)
    ensures Kept(a + b) == Kept(a) + Kept(b)
  {
    if a == [] {
      assert a + b == b;
    } else {
      assert (a + b)[1..] == a[1..] + b;
      KeptAppend(a[1..], b);
    }
  }

  /** The loop of GetResendConfig over the configured string. */
  method ParseRecipients(raw: string) returns (emails: seq<string>)
    ensures emails == Recipients(raw) && Clean(emails)
  {
    emails := [];
    if raw != "" {
      var parts := Split(raw);
      for i := 0 to |parts|
        invariant emails == Kept(parts[..i])
      {
        var trimmed := TrimSpace(parts[i]);
        assert parts[..i + 1] == parts[..i] + [parts[i]];
        KeptAppend(parts[..i], [parts[i]]);
        if trimmed != "" {
          emails := emails + [trimmed];
        }
      }
      assert parts[..|parts|] == parts;
    }
    RecipientsAreClean(raw);
  }
}
