/** The scanners read back every field of an envelope, except in one case. */
module EnvelopeRoundTrip {
  import opened Options
  import D = Decimals
  import J = Json
  import R = JsonRoundTrip
  import opened Slices
  import opened Text
  import opened Envelope
  import opened Extraction

  ghost predicate NoQuote(s: string) {
    forall k :: 0 <= k < |s| ==> s[k] != '"'
  }

  function Search(key: string): string { "\"" + key + "\"" }

  /** Something without quotes, a word in quotes, and the rest. */
  function Words(gap: string, word: string, rest: string): string {
    gap + ("\"" + (word + ("\"" + rest)))
  }

  // ---------- looking for a key ----------

  lemma {:induction false} FindLater(s: string, pat: string, p: nat, q: nat)
    requires pat != "" && p <= q <= |s| && forall k: nat :: p <= k < q ==> !Stands(s, k, pat)
    ensures Find(s, pat, p) == Find(s, pat, q)
    decreases q - p
  {
    if p < q {
      FindLater(s, pat, p + 1, q);
    }
  }

  lemma {:induction false} WordsAt(s: string, p: nat, gap: string, word: string, rest: string)
    requires p <= |s| && s[p..] == Words(gap, word, rest)
    ensures var a, b := p + |gap|, p + |gap| + |word| + 1;
      && b + 1 + |rest| == |s| && s[p..a] == gap && s[a] == '"' && s[a + 1..b] == word && s[b] == '"' && s[b + 1..] == rest
  {
    assert At(s, p, gap + ("\"" + (word + ("\"" + rest))));
    AtTail(s, p, gap, "\"" + (word + ("\"" + rest)));
    AtOne(s, p + |gap|, '"', word + ("\"" + rest));
    AtTail(s, p + |gap| + 1, word, "\"" + rest);
    AtOne(s, p + |gap| + 1 + |word|, '"', rest);
  }

  lemma {:induction false} StandsMeans(s: string, a: nat, key: string)
    ensures Stands(s, a, Search(key)) <==>
      a + |key| + 1 < |s| && s[a] == '"' && s[a + 1..a + 1 + |key|] == key && s[a + 1 + |key|] == '"'
  {
    if a + |key| + 1 < |s| {
      var t := s[a..a + |key| + 2];
      assert t == [s[a]] + s[a + 1..a + 1 + |key|] + [s[a + 1 + |key|]];
      assert t[0] == s[a] && t[1..|key| + 1] == s[a + 1..a + 1 + |key|] && t[|key| + 1] == s[a + 1 + |key|];
      var pat := Search(key);
      assert pat[0] == '"' && pat[1..|key| + 1] == key && pat[|key| + 1] == '"';
    }
  }

  /** A key in quotes stands only where the text between two neighbouring quotes is the key. */
  lemma {:induction false} NotAtOtherWord(s: string, a: nat, word: string, key: string)
    requires a + |word| + 1 < |s| && s[a + 1..a + 1 + |word|] == word && s[a + 1 + |word|] == '"'
    requires NoQuote(word) && NoQuote(key) && word != key
    ensures !Stands(s, a, Search(key))
  {
    hide Stands;
    StandsMeans(s, a, key);
    if |key| < |word| {
      assert s[a + 1 + |key|] == s[a + 1..a + 1 + |word|][|key|];
    } else if |word| < |key| && a + |key| + 1 < |s| {
      assert s[a + 1..a + 1 + |key|][|word|] == s[a + 1 + |word|];
    }
  }

  lemma {:induction false} NotHere(s: string, k: nat, key: string)
    requires k < |s| && (s[k] != '"' || (key != "" && k + 1 < |s| && s[k + 1] != key[0]))
    ensures !Stands(s, k, Search(key))
  {
    hide Stands;
    StandsMeans(s, k, key);
    if key != "" && k + |key| + 1 < |s| {
      assert s[k + 1..k + 1 + |key|][0] == s[k + 1];
    }
  }

  /** Another word is passed over. */
  lemma {:induction false} PassWord(s: string, p: nat, gap: string, word: string, rest: string, key: string)
    requires p <= |s| && s[p..] == Words(gap, word, rest) && NoQuote(gap) && NoQuote(word) && NoQuote(key)
    requires word != key && key != "" && rest != "" && rest[0] != key[0]
    ensures var q := p + |gap| + |word| + 2; q <= |s| && s[q..] == rest && Find(s, Search(key), p) == Find(s, Search(key), q)
  {
    hide Stands, Find;
    WordsAt(s, p, gap, word, rest);
    var a, b := p + |gap|, p + |gap| + |word| + 1;
    forall k: nat | p <= k < b + 1 ensures !Stands(s, k, Search(key)) {
      if k == a {
        NotAtOtherWord(s, a, word, key);
      } else {
        if k < a {
          assert s[k] == gap[k - p];
        } else if k < b {
          assert s[k] == word[k - a - 1];
        } else {
          assert s[b + 1] == rest[0];
        }
        NotHere(s, k, key);
      }
    }
    FindLater(s, Search(key), p, b + 1);
  }

  /** The key itself is found. */
  lemma {:induction false} HitWord(s: string, p: nat, gap: string, key: string, rest: string)
    requires p <= |s| && s[p..] == Words(gap, key, rest) && NoQuote(gap)
    ensures Find(s, Search(key), p) == p + |gap| < |s|
    ensures var q := p + |gap| + |key| + 2; q <= |s| && s[q..] == rest
  {
    hide Stands, Find;
    WordsAt(s, p, gap, key, rest);
    var a := p + |gap|;
    forall k: nat | p <= k < a ensures !Stands(s, k, Search(key)) {
      assert s[k] == gap[k - p];
      NotHere(s, k, key);
    }
    FindLater(s, Search(key), p, a);
    assert Stands(s, a, Search(key)) by { StandsHere(s, a, key); }
    FindHere(s, Search(key), a);
  }

  lemma {:induction false} StandsHere(s: string, a: nat, key: string)
    requires a + |key| + 1 < |s| && s[a] == '"' && s[a + 1..a + 1 + |key|] == key && s[a + 1 + |key|] == '"'
    ensures Stands(s, a, Search(key))
  {
    StandsMeans(s, a, key);
  }

  lemma {:induction false} FindHere(s: string, pat: string, a: nat)
    requires pat != "" && a < |s| && Stands(s, a, pat)
    ensures Find(s, pat, a) == a
  {
  }

  // ---------- reading a value ----------

  lemma {:induction false} OneSeparator(s: string, p: nat)
    requires p + 1 < |s| && s[p] == ':' && !IsSeparator(s[p + 1])
    ensures SkipSeparators(s, p) == p + 1
  {
    assert SkipSeparators(s, p + 1) == p + 1;
  }

  lemma {:induction false} DigitsCopied(s: string, p: nat, text: string, out: string)
    requires At(s, p, text) && D.AllDigits(text) && |out| + |text| < INT_BUF
    requires p + |text| < |s| && !D.IsDigit(s[p + |text|])
    ensures CopyDigits(s, p, out) == out + text
    decreases |text|
  {
    if text == "" {
      assert out + text == out;
    } else {
      AtIndex(s, p, text, 0);
      assert text == [text[0]] + text[1..];
      AtTail(s, p, [text[0]], text[1..]);
      DigitsCopied(s, p + 1, text[1..], out + [text[0]]);
      assert out + [text[0]] + text[1..] == out + text;
    }
  }

  lemma {:induction false} AtoiReads(text: string)
    requires text != "" && D.AllDigits(text)
    ensures Atoi(text) == D.NatOf(text)
  {
    assert D.IsDigit(text[0]);
    D.DigitsEndIs(text, 0, |text|);
    assert text[..|text|] == text;
  }

  /** A positive number that fits a C `int`. */
  predicate IsId(n: int) { 0 < n < 0x8000_0000 }

  lemma {:induction false} FewDigits(n: nat, k: nat)
    requires n < D.PowerOfTen(k) && k > 0
    ensures |J.NatText(n)| <= k
  {
    if n >= 10 {
      FewDigits(n / 10, k - 1);
    }
  }

  lemma {:induction false} IdText(n: int)
    requires IsId(n)
    ensures var t := J.NatText(n); 1 <= |t| <= 10 && D.AllDigits(t) && D.NatOf(t) == n && D.IsDigit(t[0])
  {
    assert D.PowerOfTen(5) == 100000 && D.PowerOfTen(10) == 10000000000;
    FewDigits(n, 10);
    R.NatTextReads(n);
  }

  lemma {:induction false} ColonThen(s: string, q: nat, t: string, rest: string)
    requires q <= |s| && s[q..] == ":" + (t + rest) && t != "" && rest != ""
    ensures q + 1 + |t| < |s| && s[q] == ':' && s[q + 1] == t[0] && At(s, q + 1, t) && s[q + 1 + |t|] == rest[0]
  {
    assert At(s, q, ":" + (t + rest));
    hide At;
    AtOne(s, q, ':', t + rest);
    AtTail(s, q + 1, t, rest);
    AtIndex(s, q + 1, t, 0);
    AtIndex(s, q + 1 + |t|, rest, 0);
  }

  /** The number behind a key that has been found. */
  lemma {:induction false} IntReads(s: string, key: string, n: int, p: nat, gap: string, rest: string)
    requires IsId(n) && Find(s, Search(key), 0) == p < |s| && p + |key| + 2 <= |s|
    requires s[p + |key| + 2..] == ":" + (J.NatText(n) + rest) && rest != "" && !D.IsDigit(rest[0])
    ensures GetInt(s, key) == n
  {
    hide Find, J.NatText, Atoi, CopyDigits, D.NatOf, D.PowerOfTen, At, SkipSeparators;
    var t, q := J.NatText(n), p + |key| + 2;
    IdText(n);
    ColonThen(s, q, t, rest);
    OneSeparator(s, q);
    DigitsCopied(s, q + 1, t, "");
    assert "" + t == t;
    AtoiReads(t);
  }

  lemma {:induction false} StringCopied(s: string, p: nat, text: string, out: string, max: nat)
    requires At(s, p, text + "\"") && (forall k :: 0 <= k < |text| ==> text[k] != '"' && text[k] != '\\')
    requires |out| + |text| + 1 < max
    ensures CopyString(s, p, out, max) == out + text + "\""
    decreases |text|
  {
    AtIndex(s, p, text + "\"", 0);
    if text == "" {
      assert s[p..p + 1] == "\"";
      assert out + "" == out;
    } else {
      AtFront(s, p, text, 1, "\"");
      assert s[p..p + 1] == [text[0]];
      StringCopied(s, p + 1, text[1..], out + [text[0]], max);
      assert out + [text[0]] + text[1..] == out + text;
    }
  }

  // ---------- strings with escapes ----------

  function FirstQuote(body: string): (i: nat)
    ensures i <= |body|
    ensures i < |body| ==> body[i] == '"'
    ensures forall k :: 0 <= k < i ==> body[k] != '"'
  {
    if body == "" || body[0] == '"' then 0 else 1 + FirstQuote(body[1..])
  }

  lemma {:induction false} FirstQuoteLater(body: string, k: nat)
    requires k <= |body| && forall i :: 0 <= i < k ==> body[i] != '"'
    ensures FirstQuote(body) == k + FirstQuote(body[k..])
    decreases k
  {
    if k > 0 {
      FirstQuoteLater(body[1..], k - 1);
      assert body[1..][k - 1..] == body[k..];
    }
  }

  lemma {:induction false} CutJoins(body: string, k: nat, i: nat, out: string)
    requires k <= |body| && i <= |body| - k + 1
    ensures out + body[..k] + (body[k..] + "\"")[..i] == out + (body + "\"")[..k + i]
  {
    assert (body + "\"")[..k + i] == body[..k] + (body[k..] + "\"")[..i];
  }

  lemma {:induction false} OneStep(s: string, p: nat, body: string, k: nat)
    requires At(s, p, body + "\"") && k <= |body|
    ensures At(s, p + k, body[k..] + "\"") && s[p..p + k] == body[..k]
  {
    AtTail(s, p, body[..k], body[k..] + "\"") by { assert body[..k] + (body[k..] + "\"") == body + "\""; }
  }

  /** The string branch copies up to the first quote of any kind. */
  lemma {:induction false} BodyCut(s: string, p: nat, body: string, out: string, max: nat)
    requires At(s, p, body + "\"") && IsBody(body) && |out| + |body| + 1 < max
    ensures CopyString(s, p, out, max) == out + (body + "\"")[..FirstQuote(body) + 1]
    decreases |body|
  {
    hide At;
    var all := body + "\"";
    AtIndex(s, p, all, 0);
    if body == "" {
      assert s[p..p + 1] == "\"";
    } else {
      AtIndex(s, p, all, 1);
      var k := if body[0] == '\\' then 2 else 1;
      OneStep(s, p, body, k);
      if k == 2 && body[1] == '"' {
        assert FirstQuote(body) == 1 by { FirstQuoteLater(body, 1); }
        assert all[..2] == body[..2];
      } else {
        BodyCut(s, p + k, body[k..], out + body[..k], max);
        FirstQuoteLater(body, k);
        CutJoins(body, k, FirstQuote(body[k..]) + 1, out);
      }
    }
  }

  /** A string with escapes is copied whole exactly if none of the escapes is a quote. */
  lemma {:induction false} StringSurvives(s: string, p: nat, body: string, max: nat)
    requires At(s, p, body + "\"") && IsBody(body) && IsCString(body) && |body| + 2 < max
    ensures CopyString(s, p, "\"", max) == "\"" + body + "\"" <==> NoQuote(body)
  {
    BodyCut(s, p, body, "\"", max);
    var i := FirstQuote(body);
    if NoQuote(body) {
      assert i == |body|;
      assert (body + "\"")[..|body| + 1] == body + "\"";
      assert "\"" + (body + "\"") == "\"" + body + "\"";
    }
  }

  // ---------- the envelope ----------

  /** A type that fits its buffer and needs no escape. */
  predicate IsKind(kind: string) {
    kind != "" && |kind| + 2 < TYPE_BUF && IsCString(kind) && forall k :: 0 <= k < |kind| ==> kind[k] != '"' && kind[k] != '\\'
  }

  /** An object or a list as JSON text. */
  ghost predicate IsGroup(data: string) {
    exists k: Chunk :: k.Group? && Balanced(k) && ChunkText(k) == data
  }

  /** What stands between the quotes. */
  function Inside(data: string): string
    requires |data| >= 2
  {
    data[1..|data| - 1]
  }

  predicate IsString(data: string) {
    |data| >= 2 && data == "\"" + (Inside(data) + "\"") && IsBody(Inside(data)) && IsCString(Inside(data))
  }

  /** A number, a boolean or `null`: nothing that would end it. */
  predicate IsScalar(data: string) {
    data != "" && forall k :: 0 <= k < |data| ==> !EndsScalar(data[k]) && !IsSeparator(data[k]) && data[k] !in "\"{["
  }

  /** Any value as JSON text that fits the buffer. */
  ghost predicate IsPayload(data: string) {
    |data| < DATA_BUF && (IsGroup(data) || IsString(data) || IsScalar(data))
  }

  /** A string with an escaped quote. */
  predicate IsCut(data: string) { |data| >= 2 && data[0] == '"' && FirstQuote(Inside(data)) < |data| - 2 }

  /** What the scanner makes of the data: a string ends at its first quote. */
  function Arriving(data: string): string {
    if IsCut(data) then "\"" + (Inside(data) + "\"")[..FirstQuote(Inside(data)) + 1] else data
  }

  /** What stands between a key and the next one, for a number. */
  function Number(n: nat): string { ":" + J.NatText(n) + "," }

  function FromData(data: string): string { ":" + data + "}" }
  function FromKind(kind: string, data: string): string { Words(":", kind, Words(",", "data", FromData(data))) }
  function FromFrom(from: nat, kind: string, data: string): string { Words(Number(from), "type", FromKind(kind, data)) }
  function FromTo(to: nat, from: nat, kind: string, data: string): string {
    Words(Number(to), "from", FromFrom(from, kind, data))
  }

  /** `{"to":T,"from":F,"type":"S","data":V}`, key by key. */
  function EnvelopeText(to: nat, from: nat, kind: string, data: string): string {
    Words("{", "to", FromTo(to, from, kind, data))
  }

  lemma {:induction false} NumberGap(n: int)
    requires IsId(n)
    ensures NoQuote(Number(n)) && Number(n) != "" && Number(n)[0] == ':'
  {
    hide J.NatText, D.PowerOfTen;
    IdText(n);
    var t := J.NatText(n);
    forall k | 0 <= k < |t| ensures t[k] != '"' { assert D.IsDigit(t[k]); }
  }

  lemma {:induction false} WordsBegin(gap: string, word: string, rest: string)
    requires gap != ""
    ensures Words(gap, word, rest) != "" && Words(gap, word, rest)[0] == gap[0]
  {
  }

  predicate IsLaterKey(key: string) { key == "from" || key == "type" || key == "data" }

  lemma {:induction false} PassTo(to: int, from: nat, kind: string, data: string, key: string)
    requires IsId(to) && IsLaterKey(key)
    ensures var s := EnvelopeText(to, from, kind, data);
      |s| >= 5 && s[5..] == FromTo(to, from, kind, data) && Find(s, Search(key), 0) == Find(s, Search(key), 5)
  {
    hide Words, Find, Number, FromFrom;
    var s, rest := EnvelopeText(to, from, kind, data), FromTo(to, from, kind, data);
    assert s[0..] == s;
    NumberGap(to);
    WordsBegin(Number(to), "from", FromFrom(from, kind, data));
    PassWord(s, 0, "{", "to", rest, key);
  }

  lemma {:induction false} PassFrom(s: string, p: nat, to: int, from: int, kind: string, data: string, key: string)
    requires IsId(to) && IsId(from) && (key == "type" || key == "data")
    requires p <= |s| && s[p..] == FromTo(to, from, kind, data)
    ensures var q := p + |Number(to)| + 6;
      q <= |s| && s[q..] == FromFrom(from, kind, data) && Find(s, Search(key), p) == Find(s, Search(key), q)
  {
    hide Words, Find, Number, FromKind;
    NumberGap(to);
    NumberGap(from);
    WordsBegin(Number(from), "type", FromKind(kind, data));
    PassWord(s, p, Number(to), "from", FromFrom(from, kind, data), key);
  }

  lemma {:induction false} PassType(s: string, p: nat, from: int, kind: string, data: string)
    requires IsId(from) && p <= |s| && s[p..] == FromFrom(from, kind, data)
    ensures var q := p + |Number(from)| + 6;
      q <= |s| && s[q..] == FromKind(kind, data) && Find(s, Search("data"), p) == Find(s, Search("data"), q)
  {
    hide Words, Find, Number, FromData;
    NumberGap(from);
    WordsBegin(":", kind, Words(",", "data", FromData(data)));
    PassWord(s, p, Number(from), "type", FromKind(kind, data), "data");
  }

  lemma {:induction false} NumberSplits(n: nat, word: string, rest: string)
    ensures Words(Number(n), word, rest) == ":" + (J.NatText(n) + ("," + ("\"" + (word + ("\"" + rest)))))
  {
    hide J.NatText;
  }

  lemma {:induction false} ToReads(to: int, from: nat, kind: string, data: string)
    requires IsId(to)
    ensures GetInt(EnvelopeText(to, from, kind, data), "to") == to
  {
    hide Words, Find, Number, GetInt, J.NatText, FromFrom;
    var s, rest := EnvelopeText(to, from, kind, data), FromTo(to, from, kind, data);
    assert s[0..] == s;
    HitWord(s, 0, "{", "to", rest);
    NumberSplits(to, "from", FromFrom(from, kind, data));
    IntReads(s, "to", to, 1, "{", "," + ("\"" + ("from" + ("\"" + FromFrom(from, kind, data)))));
  }

  lemma {:induction false} FromReads(to: int, from: int, kind: string, data: string)
    requires IsId(to) && IsId(from)
    ensures GetInt(EnvelopeText(to, from, kind, data), "from") == from
  {
    hide Words, Find, Number, GetInt, J.NatText, FromKind, EnvelopeText;
    var s := EnvelopeText(to, from, kind, data);
    PassTo(to, from, kind, data, "from");
    NumberGap(to);
    HitWord(s, 5, Number(to), "from", FromFrom(from, kind, data));
    NumberSplits(from, "type", FromKind(kind, data));
    IntReads(s, "from", from, 5 + |Number(to)|, Number(to), "," + ("\"" + ("type" + ("\"" + FromKind(kind, data)))));
  }

  /** The value of `type`: the kind in its quotes. */
  lemma {:induction false} KindCopied(s: string, q: nat, kind: string, data: string)
    requires IsKind(kind) && q <= |s| && s[q..] == FromKind(kind, data)
    ensures q + 1 < |s| && SkipSeparators(s, q) == q + 1 && s[q + 1] == '"'
    ensures CopyString(s, q + 2, "\"", TYPE_BUF) == "\"" + kind + "\""
  {
    hide CopyString;
    WordsAt(s, q, ":", kind, Words(",", "data", FromData(data)));
    assert s[q..q + 1] == ":";
    OneSeparator(s, q);
    assert s[q + 2..q + 2 + |kind| + 1] == kind + "\"";
    StringCopied(s, q + 2, kind, "\"", TYPE_BUF);
  }

  lemma {:induction false} TypeReads(to: int, from: int, kind: string, data: string)
    requires IsId(to) && IsId(from) && IsKind(kind)
    ensures TypeOf(EnvelopeText(to, from, kind, data)) == kind
  {
    hide Words, Find, Number, FromKind, EnvelopeText, CopyString, CopyGroup, CopyScalar, SkipSeparators;
    var s := EnvelopeText(to, from, kind, data);
    PassTo(to, from, kind, data, "type");
    PassFrom(s, 5, to, from, kind, data, "type");
    var p := 5 + |Number(to)| + 6;
    NumberGap(from);
    HitWord(s, p, Number(from), "type", FromKind(kind, data));
    var q := p + |Number(from)| + 6;
    KindCopied(s, q, kind, data);
    assert ExtractValue(s, "type", TYPE_BUF) == Some("\"" + kind + "\"");
    assert ("\"" + kind + "\"")[1..|kind| + 1] == kind;
  }

  /** Behind the kind, unless it is taken for the key. */
  lemma {:induction false} DataFound(s: string, q: nat, kind: string, data: string)
    requires IsKind(kind) && q <= |s| && s[q..] == FromKind(kind, data)
    ensures kind != "data" ==>
      var p := q + 1 + |kind| + 2; Find(s, Search("data"), q) == p + 1 < |s| && p + 7 <= |s| && s[p + 7..] == FromData(data)
    ensures kind == "data" ==> Find(s, Search("data"), q) == q + 1 < |s| && q + 7 < |s| && s[q + 7] == ','
  {
    hide Words, Find, FromData;
    WordsBegin(",", "data", FromData(data));
    if kind != "data" {
      PassWord(s, q, ":", kind, Words(",", "data", FromData(data)), "data");
      HitWord(s, q + 1 + |kind| + 2, ",", "data", FromData(data));
    } else {
      HitWord(s, q, ":", "data", Words(",", "data", FromData(data)));
      assert s[q + 7] == s[q + 7..][0];
    }
  }

  lemma {:induction false} GroupReads(s: string, p: nat, data: string)
    requires IsGroup(data) && |data| < DATA_BUF && At(s, p, data + "}")
    ensures p < |s| && s[p] in "{[" && CopyValue(s, p, DATA_BUF) == data && Arriving(data) == data
  {
    hide CopyGroup, CopyString, CopyScalar, ChunksText, AllBalanced;
    var k: Chunk :| k.Group? && Balanced(k) && ChunkText(k) == data;
    AtTail(s, p, data, "}");
    AtIndex(s, p, data, 0);
    GroupCopied(s, p, k, DATA_BUF);
  }

  lemma {:induction false} StringReads(s: string, p: nat, data: string)
    requires IsString(data) && |data| < DATA_BUF && At(s, p, data + "}")
    ensures p < |s| && s[p] == '"' && CopyValue(s, p, DATA_BUF) == Arriving(data)
  {
    hide CopyGroup, CopyString, CopyScalar, IsBody;
    var body := Inside(data);
    AtTail(s, p, data, "}");
    AtOne(s, p, '"', body + "\"");
    BodyCut(s, p + 1, body, "\"", DATA_BUF);
    if !IsCut(data) {
      assert FirstQuote(body) == |body| && (body + "\"")[..|body| + 1] == body + "\"";
    }
  }

  lemma {:induction false} ScalarCopied(s: string, p: nat, text: string, out: string)
    requires (text == "" || IsScalar(text)) && At(s, p, text + "}") && |out| + |text| < DATA_BUF
    ensures CopyScalar(s, p, out, DATA_BUF) == out + text
    decreases |text|
  {
    AtIndex(s, p, text + "}", 0);
    if text == "" {
      assert out + text == out;
    } else {
      AtFront(s, p, text, 1, "}");
      ScalarCopied(s, p + 1, text[1..], out + [text[0]]);
      assert out + [text[0]] + text[1..] == out + text;
    }
  }

  lemma {:induction false} ScalarReads(s: string, p: nat, data: string)
    requires IsScalar(data) && |data| < DATA_BUF && At(s, p, data + "}")
    ensures p < |s| && !IsSeparator(s[p]) && CopyValue(s, p, DATA_BUF) == data && Arriving(data) == data
  {
    hide CopyGroup, CopyString, CopyScalar;
    AtTail(s, p, data, "}");
    AtIndex(s, p, data, 0);
    ScalarCopied(s, p, data, "");
    assert "" + data == data;
  }

  lemma {:induction false} PayloadCopied(s: string, p: nat, data: string)
    requires IsPayload(data) && p <= |s| && s[p..] == FromData(data)
    ensures p + 1 < |s| && SkipSeparators(s, p) == p + 1
    ensures CopyValue(s, p + 1, DATA_BUF) == Arriving(data) != ""
  {
    hide CopyValue, Arriving, IsGroup, IsString, IsScalar;
    assert At(s, p, ":" + (data + "}")) by { assert ":" + (data + "}") == FromData(data); }
    AtOne(s, p, ':', data + "}");
    if IsGroup(data) {
      GroupReads(s, p + 1, data);
    } else if IsString(data) {
      StringReads(s, p + 1, data);
    } else {
      ScalarReads(s, p + 1, data);
    }
    ArrivingIsSome(data);
    OneSeparator(s, p);
  }

  lemma {:induction false} ArrivingIsSome(data: string)
    requires IsPayload(data)
    ensures Arriving(data) != ""
  {
    hide AllBalanced, IsBody;
    if IsGroup(data) {
      var k: Chunk :| k.Group? && Balanced(k) && ChunkText(k) == data;
    }
  }

  lemma {:induction false} DataAt(s: string, p: nat, data: string)
    requires IsPayload(data) && Find(s, Search("data"), 0) == p < |s| && p + 6 <= |s| && s[p + 6..] == FromData(data)
    ensures DataOf(s) == Arriving(data)
  {
    hide Find, FromData, IsPayload, CopyValue, Arriving, SkipSeparators;
    PayloadCopied(s, p + 6, data);
  }

  lemma {:induction false} DataLost(s: string, p: nat)
    requires Find(s, Search("data"), 0) == p < |s| && p + 6 < |s| && s[p + 6] == ','
    ensures DataOf(s) == "null"
  {
    hide Find, CopyString, CopyGroup, SkipSeparators;
    CommaIsEmpty(s, p + 6);
  }

  lemma {:induction false} DataReads(to: int, from: int, kind: string, data: string)
    requires IsId(to) && IsId(from) && IsKind(kind) && IsPayload(data)
    ensures DataOf(EnvelopeText(to, from, kind, data)) == if kind == "data" then "null" else Arriving(data)
  {
    hide Arriving, Words, Find, Number, FromKind, FromData, EnvelopeText, DataOf, IsPayload, IsKind;
    var s := EnvelopeText(to, from, kind, data);
    PassTo(to, from, kind, data, "data");
    PassFrom(s, 5, to, from, kind, data, "data");
    var p := 5 + |Number(to)| + 6;
    PassType(s, p, from, kind, data);
    var q := p + |Number(from)| + 6;
    DataFound(s, q, kind, data);
    if kind == "data" {
      DataLost(s, q + 1);
    } else {
      DataAt(s, q + |kind| + 4, data);
    }
  }

  lemma {:induction false} CommaIsEmpty(s: string, p: nat)
    requires p < |s| && s[p] == ','
    ensures SkipSeparators(s, p) == p && CopyScalar(s, p, "", DATA_BUF) == ""
  {
  }

  /**
   * From an envelope with positive numbers, a type that needs no escape and fits, and any data that fits, the
   * scanners return exactly the fields, whatever is nested in the data, with two exceptions: a type spelled `data`
   * is taken for the key, and the data is lost; a string is cut behind its first escaped quote.
   */
  lemma {:induction false} EnvelopeReads(to: int, from: int, kind: string, data: string)
    requires IsId(to) && IsId(from) && IsKind(kind) && IsPayload(data)
    ensures Forward(EnvelopeText(to, from, kind, data)) ==
              Some(Forwarded(to, kind, from, if kind == "data" then "null" else Arriving(data)))
    ensures Forward(EnvelopeText(to, from, kind, data)) == Some(Forwarded(to, kind, from, data)) <==>
              if kind == "data" then data == "null" else !IsCut(data)
  {
    hide EnvelopeText, GetInt, TypeOf, DataOf, IsKind, IsPayload;
    ToReads(to, from, kind, data);
    FromReads(to, from, kind, data);
    TypeReads(to, from, kind, data);
    DataReads(to, from, kind, data);
    CutIsShorter(data);
  }

  lemma {:induction false} CutIsShorter(data: string)
    ensures IsCut(data) ==> |Arriving(data)| < |data|
  {
  }

  /** Printed JSON is such data. */
  lemma {:induction false} PrintedIsPayload(t: J.Tree)
    requires PlainKeys(t) && |J.Show(t)| < DATA_BUF
    ensures IsPayload(J.Show(t))
  {
    hide ItemChunks, MembersChunks, J.ShowItems, J.ShowMembers, IsGroup, IsString, IsScalar, J.IntText, J.Escape;
    match t
    case TNull => WordsAreScalars();
    case TOpaque => WordsAreScalars();
    case TBool(_) => WordsAreScalars();
    case TNumber(n) => NumberIsScalar(n);
    case TString(text) => PrintedStringIsString(text);
    case TList(_) => PrintedGroupIsGroup(t);
    case TObject(_) => PrintedGroupIsGroup(t);
  }

  lemma {:induction false} PrintedGroupIsGroup(t: J.Tree)
    requires (t.TList? || t.TObject?) && PlainKeys(t)
    ensures IsGroup(J.Show(t))
  {
    hide ItemChunks, MembersChunks, J.ShowItems, J.ShowMembers;
    TreeIsBalanced(t);
    var k := Chunks(t)[0];
    assert Chunks(t) == [k];
    OneChunk(k);
    assert k.Group? && Balanced(k) && ChunkText(k) == J.Show(t);
  }

  lemma {:induction false} WordsAreScalars()
    ensures IsScalar("null") && IsScalar("true") && IsScalar("false")
  {
  }

  lemma {:induction false} NumberIsScalar(n: int)
    ensures IsScalar(J.IntText(n))
  {
    hide J.IntText;
    R.IntTextReads(n);
  }

  lemma {:induction false} PrintedStringIsString(text: string)
    ensures IsString(J.ShowString(text)) && Inside(J.ShowString(text)) == J.Escape(text)
  {
    hide J.Escape, IsBody;
    EscapeIsBody(text);
    assert Inside(J.ShowString(text)) == J.Escape(text);
  }

  /** A printed string is cut exactly if it holds a quote. */
  lemma {:induction false} PrintedIsCut(t: J.Tree)
    ensures IsCut(J.Show(t)) <==> t.TString? && '"' in t.text
  {
    hide J.ShowItems, J.ShowMembers, J.IntText, J.Escape, FirstQuote;
    match t
    case TNull =>
    case TOpaque =>
    case TBool(_) =>
    case TNumber(n) => NumberIsScalar(n);
    case TString(text) =>
      PrintedStringIsString(text);
      QuotesAreEscaped(text);
    case TList(_) =>
    case TObject(_) =>
  }

  lemma {:induction false} QuotesAreEscaped(text: string)
    ensures '"' in J.Escape(text) <==> '"' in text
  {
    if text != "" {
      QuotesAreEscaped(text[1..]);
      assert '"' in J.EscapeChar(text[0]) <==> text[0] == '"';
    }
  }
}
