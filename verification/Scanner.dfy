/** The scanners as the relay runs them: an index walks over the text, a buffer of fixed size is filled. */
module Scanner {
  import opened Options
  import D = Decimals
  import opened Text
  import opened Envelope

  /** The first occurrence of the key in quotes, the length of the text if there is none. */
  method FindKey(s: string, search: string) returns (p: nat)
    requires search != ""
    ensures p == Find(s, search, 0)
  {
    p := 0;
    while p < |s| && !Stands(s, p, search)
      invariant p <= |s| && Find(s, search, p) == Find(s, search, 0)
      decreases |s| - p
    {
      p := p + 1;
    }
  }

  /** Behind the key and its separators; -1 where the key does not occur. */
  method SeekValue(s: string, key: string) returns (p: int)
    ensures match ValueStart(s, key)
            case None => p == -1
            case Some(q) => p == q <= |s|
  {
    hide Find;
    var search := "\"" + key + "\"";
    var at := FindKey(s, search);
    if at == |s| {
      return -1;
    }
    p := at + |search|;
    ghost var start := p;
    while p < |s| && IsSeparator(s[p])
      invariant start <= p <= |s| && SkipSeparators(s, p) == SkipSeparators(s, start)
      decreases |s| - p
    {
      p := p + 1;
    }
  }

  /** A string with its quotes. */
  method FillString(s: string, start: nat, out: array<char>) returns (i: nat)
    requires start < |s| && s[start] == '"' && out.Length >= 2
    modifies out
    ensures i < out.Length && out[..i] == CopyString(s, start + 1, "\"", out.Length)
  {
    var p := start + 1;
    out[0] := s[start];
    i := 1;
    var max := out.Length;
    assert out[..1] == "\"";
    while p < |s| && i < max - 1
      invariant start < p <= |s| && i < max == out.Length
      invariant CopyString(s, p, out[..i], max) == CopyString(s, start + 1, "\"", max)
      decreases |s| - p
    {
      ghost var before, from := out[..i], p;
      if s[p] == '\\' && p + 1 < |s| && i < max - 2 {
        out[i] := s[p];
        i, p := i + 1, p + 1;
      }
      out[i] := s[p];
      i, p := i + 1, p + 1;
      assert out[..i] == before + s[from..p];
      if s[p - 1] == '"' {
        break;
      }
    }
  }

  /** The inside of a string, behind its first quote. */
  method FillQuoted(s: string, start: nat, out: array<char>, from: nat) returns (p: nat, i: nat)
    requires start <= |s| && from < out.Length && out.Length >= 2
    modifies out
    ensures p <= |s| && i < out.Length && Copied(out[..i], p) == CopyQuoted(s, start, old(out[..from]), out.Length)
  {
    p, i := start, from;
    var max := out.Length;
    while p < |s| && s[p] != '"' && i < max - 1
      invariant start <= p <= |s| && i < max == out.Length
      invariant CopyQuoted(s, p, out[..i], max) == CopyQuoted(s, start, old(out[..from]), max)
      decreases |s| - p
    {
      ghost var before, at := out[..i], p;
      if s[p] == '\\' && p + 1 < |s| && i < max - 2 {
        out[i] := s[p];
        i, p := i + 1, p + 1;
      }
      out[i] := s[p];
      i, p := i + 1, p + 1;
      assert out[..i] == before + s[at..p];
    }
  }

  method FillGroup(s: string, start: nat, out: array<char>) returns (i: nat)
    requires start < |s| && (s[start] == '{' || s[start] == '[') && out.Length >= 2
    modifies out
    ensures i < out.Length && out[..i] == CopyGroup(s, start, s[start], CloseOf(s[start]), 0, "", out.Length)
  {
    hide CopyQuoted;
    var open, close := s[start], CloseOf(s[start]);
    var depth, p := 0, start;
    i := 0;
    var max := out.Length;
    assert out[..0] == "";
    while p < |s| && i < max - 1
      invariant start <= p <= |s| && i < max == out.Length
      invariant CopyGroup(s, p, open, close, depth, out[..i], max) == CopyGroup(s, start, open, close, 0, "", max)
      decreases |s| - p
    {
      ghost var before := out[..i];
      out[i] := s[p];
      i, p := i + 1, p + 1;
      assert out[..i] == before + [s[p - 1]];
      if s[p - 1] == '"' {
        p, i := FillQuoted(s, p, out, i);
        if p < |s| && i < max - 1 {
          ghost var body := out[..i];
          out[i] := s[p];
          i, p := i + 1, p + 1;
          assert out[..i] == body + [s[p - 1]];
        }
      } else {
        if s[p - 1] == open {
          depth := depth + 1;
        } else if s[p - 1] == close {
          depth := depth - 1;
        }
        if depth == 0 {
          break;
        }
      }
    }
  }

  method FillScalar(s: string, start: nat, out: array<char>) returns (i: nat)
    requires start <= |s| && out.Length >= 2
    modifies out
    ensures i < out.Length && out[..i] == CopyScalar(s, start, "", out.Length)
  {
    var p := start;
    i := 0;
    var max := out.Length;
    assert out[..0] == "";
    while p < |s| && !EndsScalar(s[p]) && i < max - 1
      invariant start <= p <= |s| && i < max == out.Length
      invariant CopyScalar(s, p, out[..i], max) == CopyScalar(s, start, "", max)
      decreases |s| - p
    {
      ghost var before := out[..i];
      out[i] := s[p];
      i, p := i + 1, p + 1;
      assert out[..i] == before + [s[p - 1]];
    }
  }

  /** Fills the buffer with the text of a value and ends it with a zero; -1 where the key does not occur. */
  method Extract(s: string, key: string, out: array<char>) returns (n: int)
    requires out.Length >= 2
    modifies out
    ensures match ExtractValue(s, key, out.Length)
            case None => n == -1
            case Some(t) => n == |t| < out.Length && out[..n] == t && out[n] == '\0'
  {
    hide ValueStart, CopyString, CopyGroup, CopyScalar;
    var p := SeekValue(s, key);
    if p == -1 {
      return -1;
    }
    if p < |s| && s[p] == '"' {
      n := FillString(s, p, out);
    } else if p < |s| && (s[p] == '{' || s[p] == '[') {
      n := FillGroup(s, p, out);
    } else {
      n := FillScalar(s, p, out);
    }
    ghost var t := out[..n];
    out[n] := '\0';
    assert out[..n] == t;
  }

  // ---------- integers ----------

  method ParseInt(s: string, key: string) returns (v: int)
    ensures v == GetInt(s, key)
  {
    hide ValueStart, Atoi, CopyPlain, CopyDigits;
    var p := SeekValue(s, key);
    if p == -1 {
      return 0;
    }
    if p < |s| && s[p] == '"' {
      var text := ReadPlain(s, p + 1);
      v := Atoi(text);
    } else if p < |s| && (s[p] == '-' || D.IsDigit(s[p])) {
      var text := ReadDigits(s, if s[p] == '-' then p + 1 else p, if s[p] == '-' then "-" else "");
      v := Atoi(text);
    } else {
      v := 0;
    }
  }

  method ReadPlain(s: string, start: nat) returns (buf: string)
    requires start <= |s|
    ensures buf == CopyPlain(s, start, "")
  {
    var p := start;
    buf := "";
    while p < |s| && s[p] != '"' && |buf| < INT_BUF - 1
      invariant start <= p <= |s| && CopyPlain(s, p, buf) == CopyPlain(s, start, "")
      decreases |s| - p
    {
      if s[p] == '\\' && p + 1 < |s| {
        p := p + 1;
      }
      buf := buf + [s[p]];
      p := p + 1;
    }
  }

  method ReadDigits(s: string, start: nat, sign: string) returns (buf: string)
    requires start <= |s|
    ensures buf == CopyDigits(s, start, sign)
  {
    var p := start;
    buf := sign;
    while p < |s| && D.IsDigit(s[p]) && |buf| < INT_BUF - 1
      invariant start <= p <= |s| && CopyDigits(s, p, buf) == CopyDigits(s, start, sign)
      decreases |s| - p
    {
      buf := buf + [s[p]];
      p := p + 1;
    }
  }

  // ---------- a posted message ----------

  /** Both buffers are filled and read as the handler of a posted message does. */
  method TakeApart(body: string) returns (r: Option<Forwarded>)
    ensures r == Forward(body)
  {
    hide GetInt, ExtractValue;
    var to := ParseInt(body, "to");
    if to <= 0 {
      return None;
    }
    var typeBuf := new char[TYPE_BUF];
    var kind := "message";
    var n := Extract(body, "type", typeBuf);
    if n > 2 && typeBuf[0] == '"' && typeBuf[n - 1] == '"' {
      kind := typeBuf[..n][1..n - 1];
    }
    var dataBuf := new char[DATA_BUF];
    var m := Extract(body, "data", dataBuf);
    var data := if m <= 0 then "null" else dataBuf[..m];
    var from := ParseInt(body, "from");
    r := Some(Forwarded(to, kind, from, data));
  }
}
