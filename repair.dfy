/**
 * The lenient JSON decoding and the transaction-id extraction of test_improvements.py.
 *
 * The two regular-expression rewrites are written as the left-to-right scans `re.sub` performs,
 * and each is proved equal to a character-by-character description of what it changes.
 */
module Repair {
  import opened Wrappers
  import opened Text
  import opened JsonValues

  // ---------------------------------------------------------------------------------------
  // re.sub(r"'([^']*)'", r'"\1"', s)

  /** The number of `'` characters in `s`. */
  function QuoteCount(s: string): nat {
    if s == [] then 0 else (if s[0] == '\'' then 1 else 0) + QuoteCount(s[1..])
  }

  /** The quote at `k` opens a pair that never closes: it is the last quote and an odd one. */
  predicate Unpaired(s: string, k: nat)
    requires k < |s|
  {
    s[k] == '\'' && QuoteCount(s[..k]) % 2 == 0 && QuoteCount(s[k + 1..]) == 0
  }

  /** The single-quote rewrite: scanning left to right, a `'` and the next `'` become `"`; the text
      between them is copied; a `'` with no later `'` and everything after it are copied. */
  function QuoteFix(s: string): (r: string)
    ensures |r| == |s|
    decreases |s|
  {
    if s == [] then []
    else if s[0] == '\'' then
      match FindFrom(s, "'", 1)
      case None => s
      case Some(j) => "\"" + s[1..j] + "\"" + QuoteFix(s[j + 1..])
    else [s[0]] + QuoteFix(s[1..])
  }

  lemma {:induction false} QuoteCountAppend(a: string, b: string)
    ensures QuoteCount(a + b) == QuoteCount(a) + QuoteCount(b)
  {
    if a != [] {
      assert (a + b)[1..] == a[1..] + b;
      QuoteCountAppend(a[1..], b);
    } else {
      assert a + b == b;
    }
  }

  lemma {:induction false} QuoteCountZero(s: string)
    ensures QuoteCount(s) == 0 <==> forall i :: 0 <= i < |s| ==> s[i] != '\''
  {
    if s != [] {
      QuoteCountZero(s[1..]);
      assert forall i :: 1 <= i < |s| ==> s[i] == s[1..][i - 1];
    }
  }

  /** Cutting off a prefix with an even number of quotes changes no quote's pairing. */
  lemma UnpairedShift(s: string, m: nat, k: nat)
    requires m <= k < |s| && QuoteCount(s[..m]) % 2 == 0
    ensures Unpaired(s[m..], k - m) <==> Unpaired(s, k)
  {
    assert s[..k] == s[..m] + s[m..][..k - m];
    QuoteCountAppend(s[..m], s[m..][..k - m]);
    assert s[m..][k - m + 1..] == s[k + 1..];
  }

  /** What the rewrite does to each character: the output has the input's length, and a character
      changes exactly when it is a `'` other than a final unpaired one, and then it becomes `"`. */
  lemma {:induction false} QuoteFixAt(s: string)
    ensures |QuoteFix(s)| == |s|
    ensures forall k :: 0 <= k < |s| ==> QuoteFix(s)[k] == QuoteFixChar(s, k)
    decreases |s|, 1
  {
    if s == [] {
    } else if s[0] != '\'' {
      QuoteFixAtCopied(s);
    } else if FindFrom(s, "'", 1).None? {
      QuoteFixAtUnclosed(s);
    } else {
      QuoteFixAtPair(s, FindFrom(s, "'", 1).value);
    }
  }

  /** The character the rewrite puts at `k`. */
  function QuoteFixChar(s: string, k: nat): char
    requires k < |s|
  {
    if s[k] == '\'' && !Unpaired(s, k) then '"' else s[k]
  }

  lemma {:induction false} QuoteFixAtCopied(s: string)
    requires s != [] && s[0] != '\''
    ensures |QuoteFix(s)| == |s|
    ensures forall k :: 0 <= k < |s| ==> QuoteFix(s)[k] == QuoteFixChar(s, k)
    decreases |s|, 0
  {
    var r := QuoteFix(s[1..]);
    assert QuoteFix(s) == [s[0]] + r;
    QuoteFixAt(s[1..]);
    assert QuoteCount(s[..1]) == 0 by { assert s[..1][1..] == []; }
    assert !Unpaired(s, 0);
    forall k | 1 <= k < |s|
      ensures QuoteFix(s)[k] == QuoteFixChar(s, k)
    {
      CopiedCharAt(s, r, k);
    }
  }

  /** One character of the rewrite of a text that opens with a plain character. */
  lemma CopiedCharAt(s: string, r: string, k: nat)
    requires 1 <= k < |s| && QuoteCount(s[..1]) == 0
    requires |r| == |s| - 1
    requires forall i :: 0 <= i < |r| ==> r[i] == QuoteFixChar(s[1..], i)
    ensures ([s[0]] + r)[k] == QuoteFixChar(s, k)
  {
    assert ([s[0]] + r)[k] == r[k - 1];
    UnpairedShift(s, 1, k);
  }

  lemma QuoteFixAtUnclosed(s: string)
    requires s != [] && s[0] == '\'' && FindFrom(s, "'", 1).None?
    ensures |QuoteFix(s)| == |s|
    ensures forall k :: 0 <= k < |s| ==> QuoteFix(s)[k] == QuoteFixChar(s, k)
  {
    assert QuoteFix(s) == s;
    forall i | 1 <= i < |s| ensures s[i] != '\'' {
      OccursAtChar(s, '\'', i);
    }
    QuoteCountZero(s[1..]);
    assert s[..0] == [];
    assert Unpaired(s, 0);
  }

  lemma {:induction false} QuoteFixAtPair(s: string, j: nat)
    requires s != [] && s[0] == '\'' && FindFrom(s, "'", 1) == Some(j)
    ensures |QuoteFix(s)| == |s|
    ensures forall k :: 0 <= k < |s| ==> QuoteFix(s)[k] == QuoteFixChar(s, k)
    decreases |s|, 0
  {
    PairQuotes(s, j);
    var r := QuoteFix(s[j + 1..]);
    QuoteFixAt(s[j + 1..]);
    assert QuoteFix(s) == "\"" + s[1..j] + "\"" + r;
    forall k | 0 <= k < |s|
      ensures QuoteFix(s)[k] == QuoteFixChar(s, k)
    {
      PairCharAt(s, j, r, k);
    }
  }

  /** One character of the rewrite of a text that opens with a pair of quotes ending at `j`,
      given what the rewrite of the rest does. */
  lemma PairCharAt(s: string, j: nat, r: string, k: nat)
    requires 1 <= j < |s| && s[0] == '\'' && s[j] == '\''
    requires forall i :: 1 <= i < j ==> s[i] != '\''
    requires !Unpaired(s, 0) && !Unpaired(s, j) && QuoteCount(s[..j + 1]) % 2 == 0
    requires |r| == |s| - (j + 1)
    requires forall i :: 0 <= i < |r| ==> r[i] == QuoteFixChar(s[j + 1..], i)
    requires k < |s|
    ensures ("\"" + s[1..j] + "\"" + r)[k] == QuoteFixChar(s, k)
  {
    var out := "\"" + s[1..j] + "\"" + r;
    if j < k {
      assert out[k] == r[k - (j + 1)];
      UnpairedShift(s, j + 1, k);
    } else if 0 < k < j {
      assert out[k] == s[k];
    }
  }

  /** A quote at 0 and the next quote at `j` form a pair: nothing between them is a quote,
      neither end is unpaired, and the text up to `j` holds exactly these two. */
  lemma PairQuotes(s: string, j: nat)
    requires s != [] && s[0] == '\'' && FindFrom(s, "'", 1) == Some(j)
    ensures 1 <= j < |s| && s[j] == '\''
    ensures forall i :: 1 <= i < j ==> s[i] != '\''
    ensures !Unpaired(s, 0) && !Unpaired(s, j) && QuoteCount(s[..j + 1]) % 2 == 0
  {
    OccursAtChar(s, '\'', j);
    forall i | 1 <= i < j ensures s[i] != '\'' {
      OccursAtChar(s, '\'', i);
    }
    PairCounts(s, j);
  }

  /** The quote counts around a pair opening the text. */
  lemma PairCounts(s: string, j: nat)
    requires 1 <= j < |s| && s[0] == '\'' && s[j] == '\''
    requires forall i :: 1 <= i < j ==> s[i] != '\''
    ensures !Unpaired(s, 0) && !Unpaired(s, j) && QuoteCount(s[..j + 1]) == 2
  {
    assert QuoteCount(s[1..]) != 0 by {
      QuoteCountZero(s[1..]);
      assert s[1..][j - 1] == '\'';
    }
    assert s[..0] == [];
    assert QuoteCount(s[..j]) == 1 by {
      assert s[..j] == [s[0]] + s[1..j];
      QuoteCountAppend([s[0]], s[1..j]);
      QuoteCountZero(s[1..j]);
      assert [s[0]][1..] == [];
    }
    assert s[..j + 1] == s[..j] + [s[j]];
    QuoteCountAppend(s[..j], [s[j]]);
    assert [s[j]][1..] == [];
  }

  /** A text without single quotes is left as it is. */
  lemma QuoteFixNoQuotes(s: string)
    requires '\'' !in s
    ensures QuoteFix(s) == s
  {
    QuoteFixAt(s);
  }

  /** Applying the rewrite twice changes nothing more: after one pass at most a final unpaired
      quote is left. */
  lemma QuoteFixIdempotent(s: string)
    ensures QuoteFix(QuoteFix(s)) == QuoteFix(s)
  {
    var r := QuoteFix(s);
    QuoteFixAt(s);
    QuoteFixAt(r);
    forall k | 0 <= k < |r|
      ensures QuoteFix(r)[k] == r[k]
    {
      if r[k] == '\'' {
        QuoteLeftIsUnpaired(s, r, k);
      }
    }
  }

  /** A quote the rewrite leaves in place is the final unpaired one of the output too. */
  lemma QuoteLeftIsUnpaired(s: string, r: string, k: nat)
    requires |r| == |s| && forall i :: 0 <= i < |s| ==> r[i] == QuoteFixChar(s, i)
    requires k < |r| && r[k] == '\''
    ensures Unpaired(r, k)
  {
    assert s[k] == '\'' && Unpaired(s, k);
    QuoteCountZero(s[k + 1..]);
    forall i | k < i < |r| ensures r[i] != '\'' {
      assert s[k + 1..][i - k - 1] == s[i];
    }
    forall i | 0 <= i < k ensures r[i] != '\'' {
      if s[i] == '\'' {
        QuoteCountZero(s[i + 1..]);
        assert s[i + 1..][k - i - 1] == s[k];
      }
    }
    QuoteCountZero(r[k + 1..]);
    QuoteCountZero(r[..k]);
  }

  // ---------------------------------------------------------------------------------------
  // re.sub(r',(\s*[}\]])', r'\1', s)

  predicate IsCloser(c: char) {
    c == '}' || c == ']'
  }

  /** The first non-whitespace character at or after `i` exists and closes an object or array. */
  predicate ClosesAfter(s: string, i: nat)
    requires i <= |s|
  {
    SkipSpaces(s, i) < |s| && IsCloser(s[SkipSpaces(s, i)])
  }

  /** The comma at `k` is a trailing one. */
  predicate TrailingComma(s: string, k: nat)
    requires k < |s|
  {
    s[k] == ',' && ClosesAfter(s, k + 1)
  }

  /** The trailing-comma rewrite as `re.sub` scans, from index `i`: a match is a comma, the
      whitespace after it and the closer; the whitespace and the closer are kept and the scan
      resumes after the closer. Anywhere else one character is copied. */
  function DropCommasFrom(s: string, i: nat): (r: string)
    requires i <= |s|
    ensures |r| <= |s| - i
    decreases |s| - i
  {
    if i == |s| then []
    else if s[i] == ',' && ClosesAfter(s, i + 1) then
      var q := SkipSpaces(s, i + 1);
      s[i + 1..q + 1] + DropCommasFrom(s, q + 1)
    else [s[i]] + DropCommasFrom(s, i + 1)
  }

  function DropTrailingCommas(s: string): (r: string)
    ensures |r| <= |s|
  {
    DropCommasFrom(s, 0)
  }

  /** The reference description: the characters from `i` on, in order, without the trailing
      commas. */
  function KeptFrom(s: string, i: nat): string
    requires i <= |s|
    decreases |s| - i
  {
    if i == |s| then []
    else if TrailingComma(s, i) then KeptFrom(s, i + 1)
    else [s[i]] + KeptFrom(s, i + 1)
  }

  /** A stretch without commas is copied as it stands. */
  lemma {:induction false} KeptRun(s: string, i: nat, m: nat)
    requires i <= m <= |s|
    requires ',' !in s[i..m]
    ensures KeptFrom(s, i) == s[i..m] + KeptFrom(s, m)
    decreases m - i
  {
    if i < m {
      assert s[i..m] == [s[i]] + s[i + 1..m];
      assert s[i] in s[i..m];
      KeptRun(s, i + 1, m);
      assert !TrailingComma(s, i);
      assert KeptFrom(s, i) == [s[i]] + KeptFrom(s, i + 1);
      assert s[i..m] == [s[i]] + s[i + 1..m];
      assert [s[i]] + (s[i + 1..m] + KeptFrom(s, m)) == s[i..m] + KeptFrom(s, m);
    }
  }

  /** The scan deletes exactly the commas whose next non-whitespace character is `}` or `]` and
      keeps every other character in order. */
  lemma {:induction false} DropCommasFromIsKept(s: string, i: nat)
    requires i <= |s|
    ensures DropCommasFrom(s, i) == KeptFrom(s, i)
    decreases |s| - i, 1
  {
    if i < |s| {
      if s[i] == ',' && ClosesAfter(s, i + 1) {
        DropTrailingStep(s, i);
      } else {
        DropPlainStep(s, i);
      }
    }
  }

  lemma {:induction false} DropTrailingStep(s: string, i: nat)
    requires i < |s| && s[i] == ',' && ClosesAfter(s, i + 1)
    ensures DropCommasFrom(s, i) == KeptFrom(s, i)
    decreases |s| - i, 0
  {
    DropCommasFromIsKept(s, SkipSpaces(s, i + 1) + 1);
    TrailingKept(s, i);
  }

  /** A trailing comma is dropped and the whitespace and closer after it are kept. */
  lemma TrailingKept(s: string, i: nat)
    requires i < |s| && s[i] == ',' && ClosesAfter(s, i + 1)
    ensures KeptFrom(s, i) == s[i + 1..SkipSpaces(s, i + 1) + 1] + KeptFrom(s, SkipSpaces(s, i + 1) + 1)
  {
    assert KeptFrom(s, i) == KeptFrom(s, i + 1) by {
      assert TrailingComma(s, i);
    }
    KeptToCloser(s, i + 1);
  }

  /** Whitespace followed by a closer is kept as it stands. */
  lemma KeptToCloser(s: string, j: nat)
    requires j <= |s| && ClosesAfter(s, j)
    ensures KeptFrom(s, j) == s[j..SkipSpaces(s, j) + 1] + KeptFrom(s, SkipSpaces(s, j) + 1)
  {
    SpacesBeforeCloser(s, j);
    KeptRun(s, j, SkipSpaces(s, j) + 1);
  }

  lemma {:induction false} DropPlainStep(s: string, i: nat)
    requires i < |s| && !(s[i] == ',' && ClosesAfter(s, i + 1))
    ensures DropCommasFrom(s, i) == KeptFrom(s, i)
    decreases |s| - i, 0
  {
    DropCommasFromIsKept(s, i + 1);
    assert !TrailingComma(s, i);
  }

  /** The whitespace and the closer after a trailing comma hold no comma. */
  lemma SpacesBeforeCloser(s: string, i: nat)
    requires i <= |s| && ClosesAfter(s, i)
    ensures ',' !in s[i..SkipSpaces(s, i) + 1]
  {
    var run := s[i..SkipSpaces(s, i) + 1];
    forall k | 0 <= k < |run| ensures run[k] != ',' {
      if i + k < SkipSpaces(s, i) {
        assert IsSpace(s[i + k]);
      }
    }
  }

  lemma DropTrailingCommasIsKept(s: string)
    ensures DropTrailingCommas(s) == KeptFrom(s, 0)
  {
    DropCommasFromIsKept(s, 0);
  }

  /** A text without trailing commas is left as it is. */
  lemma DropTrailingCommasNone(s: string)
    requires forall k :: 0 <= k < |s| ==> !TrailingComma(s, k)
    ensures DropTrailingCommas(s) == s
  {
    DropTrailingCommasIsKept(s);
    KeptAll(s, 0);
  }

  lemma {:induction false} KeptAll(s: string, i: nat)
    requires i <= |s|
    requires forall k :: i <= k < |s| ==> !TrailingComma(s, k)
    ensures KeptFrom(s, i) == s[i..]
    decreases |s| - i
  {
    if i < |s| {
      KeptAll(s, i + 1);
      assert s[i..] == [s[i]] + s[i + 1..];
    }
  }

  /** The rewrite is a single pass: in `,,}` only the second comma is trailing, so one comma
      survives (a second pass would remove it). */
  lemma DropTrailingCommasSinglePass()
    ensures DropTrailingCommas(",,}") == ",}"
  {
    var s := ",,}";
    assert SkipSpaces(s, 1) == 1;
    assert SkipSpaces(s, 2) == 2;
    assert !TrailingComma(s, 0) && TrailingComma(s, 1);
    assert s[2..3] == "}";
  }

  // ---------------------------------------------------------------------------------------
  // try_parse_json

  /** Three decoding strategies in order: the text as it is, the quote rewrite, and the comma
      rewrite followed by the quote rewrite; the first that decodes wins, and None if none does. */
  function TryParseJson(s: string, codec: Codec): (r: Option<Json>)
    ensures codec.decode(s).Ok? ==> r == Some(codec.decode(s).value)
    ensures r.None? ==> codec.decode(s).Err?
  {
    match codec.decode(s)
    case Ok(v) => Some(v)
    case Err(_) =>
      match codec.decode(QuoteFix(s))
      case Ok(v) => Some(v)
      case Err(_) => TryLoads(codec, QuoteFix(DropTrailingCommas(s)))
  }

  /** The strategies' order and outcome. */
  lemma TryParseJsonOrder(s: string, codec: Codec)
    ensures codec.decode(s).Ok? ==> TryParseJson(s, codec) == Some(codec.decode(s).value)
    ensures codec.decode(s).Err? && codec.decode(QuoteFix(s)).Ok? ==>
              TryParseJson(s, codec) == Some(codec.decode(QuoteFix(s)).value)
    ensures codec.decode(s).Err? && codec.decode(QuoteFix(s)).Err? ==>
              TryParseJson(s, codec) == TryLoads(codec, QuoteFix(DropTrailingCommas(s)))
    ensures TryParseJson(s, codec).None? <==>
              codec.decode(s).Err? && codec.decode(QuoteFix(s)).Err?
              && codec.decode(QuoteFix(DropTrailingCommas(s))).Err?
  {
  }

  /** On a text with no single quote and no trailing comma both rewrites are the identity, so the
      lenient decoder is the plain one. */
  lemma TryParseJsonOnCleanText(s: string, codec: Codec)
    requires '\'' !in s
    requires forall k :: 0 <= k < |s| ==> !TrailingComma(s, k)
    ensures TryParseJson(s, codec) == TryLoads(codec, s)
  {
    QuoteFixNoQuotes(s);
    DropTrailingCommasNone(s);
  }
  // ---------------------------------------------------------------------------------------
  // extract_transaction_id

  /** The four label patterns, in the order they are tried:
      `transaction\s+id:?\s*([a-f0-9\-]{36})`, `transaction\s+id:?\s*([a-f0-9\-]+)`,
      `txn[:\s]+([a-f0-9\-]{36})` and `id:?\s*([a-f0-9\-]{36})`. */
  datatype IdPattern = TransactionUuid | TransactionHex | TxnUuid | IdUuid

  const IdPatterns: seq<IdPattern> := [TransactionUuid, TransactionHex, TxnUuid, IdUuid]

  const UuidLength: nat := 36

  /** The class `[a-f0-9\-]`. */
  predicate IsIdChar(c: char) {
    ('a' <= c <= 'f') || ('0' <= c <= '9') || c == '-'
  }

  predicate IdCharsIn(t: string, i: nat, j: nat)
    requires i <= j <= |t|
  {
    forall k :: i <= k < j ==> IsIdChar(t[k])
  }

  /** The end of the longest run of id characters from `i` (the greedy `[a-f0-9\-]+`). */
  function IdRun(t: string, i: nat): (r: nat)
    requires i <= |t|
    decreases |t| - i
    ensures i <= r <= |t| && IdCharsIn(t, i, r)
    ensures r < |t| ==> !IsIdChar(t[r])
  {
    if i < |t| && IsIdChar(t[i]) then IdRun(t, i + 1) else i
  }

  /** The end of the run of `:` and whitespace from `i` (the greedy `[:\s]+`). */
  function ColonsAndSpaces(t: string, i: nat): (r: nat)
    requires i <= |t|
    decreases |t| - i
    ensures i <= r <= |t|
  {
    if i < |t| && (t[i] == ':' || IsSpace(t[i])) then ColonsAndSpaces(t, i + 1) else i
  }

  /** `:?\s*` from `i`. */
  function AfterColonAndSpaces(t: string, i: nat): (r: nat)
    requires i <= |t|
    ensures i <= r <= |t|
  {
    SkipSpaces(t, if i < |t| && t[i] == ':' then i + 1 else i)
  }

  /** 36 id characters start at `q`. */
  predicate UuidAt(t: string, q: nat) {
    q + UuidLength <= |t| && IdCharsIn(t, q, q + UuidLength)
  }

  /** Exactly 36 id characters from `q`: the group of `([a-f0-9\-]{36})`. */
  function Uuid(t: string, q: nat): Option<string> {
    if UuidAt(t, q) then Some(t[q..q + UuidLength]) else None
  }

  /** Where the id starts after `transaction\s+id:?\s*` matched at `k`, if it does. */
  function AfterTransactionLabel(t: string, k: nat): Option<nat> {
    if !OccursAt(t, "transaction", k) then None
    else
      var q := SkipSpaces(t, k + 11);
      if q == k + 11 || !OccursAt(t, "id", q) then None else Some(AfterColonAndSpaces(t, q + 2))
  }

  /** The group the pattern captures when a match starts at `k`. Every quantifier in these patterns
      is followed by a character it cannot consume, so the greedy choice is the only one that
      can succeed and no backtracking is needed. */
  function MatchAt(p: IdPattern, t: string, k: nat): Option<string> {
    match p
    case TransactionUuid =>
      (match AfterTransactionLabel(t, k)
       case None => None
       case Some(q) => Uuid(t, q))
    case TransactionHex =>
      (match AfterTransactionLabel(t, k)
       case None => None
       case Some(q) => var e := IdRun(t, q); if e == q then None else Some(t[q..e]))
    case TxnUuid =>
      if !OccursAt(t, "txn", k) then None
      else
        var q := ColonsAndSpaces(t, k + 3);
        if q == k + 3 then None else Uuid(t, q)
    case IdUuid =>
      if !OccursAt(t, "id", k) then None else Uuid(t, AfterColonAndSpaces(t, k + 2))
  }

  /** A captured group consists of id characters; the 36-character patterns capture exactly 36. */
  lemma MatchAtShape(p: IdPattern, t: string, k: nat)
    requires MatchAt(p, t, k).Some?
    ensures forall c :: c in MatchAt(p, t, k).value ==> IsIdChar(c)
    ensures p != TransactionHex ==> |MatchAt(p, t, k).value| == UuidLength
    ensures |MatchAt(p, t, k).value| >= 1
  {
  }

  /** `re.search`: the match that starts leftmost, at or after `from`. */
  function Search(p: IdPattern, t: string, from: nat): (r: Option<string>)
    decreases |t| - from
    ensures r.Some? ==> exists k :: from <= k <= |t| && MatchAt(p, t, k) == r
                          && forall j :: from <= j < k ==> MatchAt(p, t, j).None?
    ensures r.None? ==> forall k :: from <= k <= |t| ==> MatchAt(p, t, k).None?
  {
    if from > |t| then None
    else if MatchAt(p, t, from).Some? then MatchAt(p, t, from)
    else Search(p, t, from + 1)
  }

  /** Try the patterns of `ps` in order; the first that matches anywhere gives the id. */
  function FirstPatternMatch(ps: seq<IdPattern>, t: string): (r: Option<string>)
    ensures r.Some? ==> exists i :: 0 <= i < |ps| && Search(ps[i], t, 0) == r
                          && forall j :: 0 <= j < i ==> Search(ps[j], t, 0).None?
    ensures r.None? ==> forall i :: 0 <= i < |ps| ==> Search(ps[i], t, 0).None?
  {
    if ps == [] then None
    else if Search(ps[0], t, 0).Some? then Search(ps[0], t, 0)
    else
      var r := FirstPatternMatch(ps[1..], t);
      assert forall i :: 1 <= i < |ps| ==> ps[i] == ps[1..][i - 1];
      r
  }

  /** The patterns are searched in the lowercased text. */
  function ExtractTransactionId(text: string): (r: Option<string>)
    ensures r.None? <==> forall i :: 0 <= i < |IdPatterns| ==> Search(IdPatterns[i], Lower(text), 0).None?
    ensures Search(TransactionUuid, Lower(text), 0).Some? ==> r == Search(TransactionUuid, Lower(text), 0)
  {
    FirstPatternMatch(IdPatterns, Lower(text))
  }

  /** An extracted id is made of `[a-f0-9-]` only, so it is already lower case; it is 36
      characters long unless only the open-ended hexadecimal pattern matched. */
  lemma ExtractedIdShape(text: string)
    requires ExtractTransactionId(text).Some?
    ensures var id := ExtractTransactionId(text).value;
      |id| >= 1 && Lower(id) == id && (forall c :: c in id ==> IsIdChar(c))
    ensures var id := ExtractTransactionId(text).value;
      |id| != UuidLength ==>
        Search(TransactionUuid, Lower(text), 0).None? && Search(TransactionHex, Lower(text), 0) == Some(id)
  {
    var t := Lower(text);
    var id := ExtractTransactionId(text).value;
    var i :| 0 <= i < 4 && Search(IdPatterns[i], t, 0) == Some(id)
             && forall j :: 0 <= j < i ==> Search(IdPatterns[j], t, 0).None?;
    SearchedShape(IdPatterns[i], t);
    LowerIdChars(id);
  }

  /** What a search finds is a group of the pattern. */
  lemma SearchedShape(p: IdPattern, t: string)
    requires Search(p, t, 0).Some?
    ensures var id := Search(p, t, 0).value;
      |id| >= 1 && (forall c :: c in id ==> IsIdChar(c)) && (p != TransactionHex ==> |id| == UuidLength)
  {
    var k :| 0 <= k <= |t| && MatchAt(p, t, k) == Search(p, t, 0);
    MatchAtShape(p, t, k);
  }

  /** Id characters have no upper case. */
  lemma LowerIdChars(id: string)
    requires forall c :: c in id ==> IsIdChar(c)
    ensures Lower(id) == id
  {
    forall m | 0 <= m < |id| ensures Lower(id)[m] == id[m] {
      assert id[m] in id;
    }
  }

  /** A search answers with the leftmost position where the pattern matches. */
  lemma {:induction false} SearchIs(p: IdPattern, t: string, from: nat, m: nat)
    requires from <= m <= |t| && MatchAt(p, t, m).Some?
    requires forall j :: from <= j < m ==> MatchAt(p, t, j).None?
    ensures Search(p, t, from) == MatchAt(p, t, m)
    decreases m - from
  {
    if from < m {
      assert MatchAt(p, t, from).None?;
      assert Search(p, t, from) == Search(p, t, from + 1);
      SearchIs(p, t, from + 1, m);
    }
  }

  /** An id character is not whitespace. */
  lemma IdCharNotSpace(c: char)
    requires IsIdChar(c)
    ensures !IsSpace(c)
  {
  }

  /** A text whose lowercase form carries `transaction id:` followed by 36 id characters, with no
      earlier `transaction`, gives that id: the first pattern matches there. */
  lemma LabelledUuid(text: string, p: string, u: string, r: string)
    requires Lower(text) == p + "transaction id:" + u + r
    requires |u| == UuidLength && forall c :: c in u ==> IsIdChar(c)
    requires forall k :: 0 <= k < |p| ==> !OccursAt(Lower(text), "transaction", k)
    ensures ExtractTransactionId(text) == Some(u)
  {
    var t := Lower(text);
    var n := |p|;
    LabelledUuidAt(p, u, r);
    forall j | 0 <= j < n ensures MatchAt(TransactionUuid, t, j).None? {
      assert !OccursAt(t, "transaction", j);
    }
    SearchIs(TransactionUuid, t, 0, n);
    assert IdPatterns[0] == TransactionUuid;
  }

  /** The first pattern at the label of such a text captures the 36 characters after it. */
  lemma LabelledUuidAt(p: string, u: string, r: string)
    requires |u| == UuidLength && forall c :: c in u ==> IsIdChar(c)
    ensures MatchAt(TransactionUuid, p + "transaction id:" + u + r, |p|) == Some(u)
  {
    var t := p + "transaction id:" + u + r;
    var n := |p|;
    assert t[n..n + 11] == "transaction";
    assert t[n + 11] == ' ' && t[n + 12] == 'i';
    assert SkipSpaces(t, n + 12) == n + 12;
    assert SkipSpaces(t, n + 11) == n + 12;
    assert t[n + 12..n + 14] == "id";
    assert t[n + 14] == ':';
    assert t[n + 15] == u[0];
    IdCharNotSpace(u[0]);
    assert AfterColonAndSpaces(t, n + 14) == n + 15;
    assert t[n + 15..n + 15 + UuidLength] == u;
    forall k | n + 15 <= k < n + 15 + UuidLength ensures IsIdChar(t[k]) {
      assert t[k] == u[k - (n + 15)];
    }
  }

  /** A text whose lowercase form has no `transaction` label but carries `txn:` followed by 36 id
      characters, with no earlier `txn`, gives that id: the third pattern matches there. */
  lemma LabelledTxnUuid(text: string, p: string, u: string, r: string)
    requires Lower(text) == p + "txn:" + u + r
    requires |u| == UuidLength && forall c :: c in u ==> IsIdChar(c)
    requires forall k :: !OccursAt(Lower(text), "transaction", k)
    requires forall k :: 0 <= k < |p| ==> !OccursAt(Lower(text), "txn", k)
    ensures ExtractTransactionId(text) == Some(u)
  {
    var t := Lower(text);
    var n := |p|;
    LabelledTxnUuidAt(p, u, r);
    forall j | 0 <= j < n ensures MatchAt(TxnUuid, t, j).None? {
      assert !OccursAt(t, "txn", j);
    }
    SearchIs(TxnUuid, t, 0, n);
    forall i | 0 <= i < 2 ensures Search(IdPatterns[i], t, 0).None? {
      forall k | 0 <= k <= |t| ensures MatchAt(IdPatterns[i], t, k).None? {
        assert !OccursAt(t, "transaction", k);
      }
    }
    assert IdPatterns[2] == TxnUuid;
  }

  /** The third pattern at the `txn` label of such a text captures the 36 characters after it. */
  lemma LabelledTxnUuidAt(p: string, u: string, r: string)
    requires |u| == UuidLength && forall c :: c in u ==> IsIdChar(c)
    ensures MatchAt(TxnUuid, p + "txn:" + u + r, |p|) == Some(u)
  {
    var t := p + "txn:" + u + r;
    var n := |p|;
    assert t[n..n + 3] == "txn";
    assert t[n + 3] == ':';
    assert t[n + 4] == u[0];
    IdCharNotSpace(u[0]);
    assert ColonsAndSpaces(t, n + 4) == n + 4;
    assert t[n + 4..n + 4 + UuidLength] == u;
    forall k | n + 4 <= k < n + 4 + UuidLength ensures IsIdChar(t[k]) {
      assert t[k] == u[k - (n + 4)];
    }
  }

  /** A text with no `transaction` label and no run of 36 id characters gives no id. */
  lemma NoIdFound(text: string)
    requires forall k :: !OccursAt(Lower(text), "transaction", k)
    requires forall q: nat :: !UuidAt(Lower(text), q)
    ensures ExtractTransactionId(text).None?
  {
    var t := Lower(text);
    forall i | 0 <= i < |IdPatterns| ensures Search(IdPatterns[i], t, 0).None? {
      forall k | 0 <= k <= |t| ensures MatchAt(IdPatterns[i], t, k).None? {
        NoMatchAt(IdPatterns[i], t, k);
      }
    }
  }

  /** Without the label and without a 36-character run no pattern matches anywhere. */
  lemma NoMatchAt(p: IdPattern, t: string, k: nat)
    requires forall j :: !OccursAt(t, "transaction", j)
    requires forall q: nat :: !UuidAt(t, q)
    ensures MatchAt(p, t, k).None?
  {
    assert !OccursAt(t, "transaction", k);
  }
}
