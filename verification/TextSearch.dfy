/** Searching text for quoted names. */
module TextSearch {
  import opened MarlinPacket

  predicate At(text: string, i: nat, piece: string) {
    i + |piece| <= |text| && text[i..i + |piece|] == piece
  }

  /** The first occurrence from i on. */
  function Find(text: string, piece: string, i: nat): (r: Option<nat>)
    requires i <= |text|
    ensures r == None ==> forall j :: i <= j <= |text| ==> !At(text, j, piece)
    ensures r.Some? ==> i <= r.value <= |text| && At(text, r.value, piece) && forall j :: i <= j < r.value ==> !At(text, j, piece)
    decreases |text| - i
  {
    if At(text, i, piece) then Some(i) else if i == |text| then None else Find(text, piece, i + 1)
  }

  lemma Split(text: string, i: nat, a: string, b: string)
    requires At(text, i, a + b)
    ensures At(text, i, a) && At(text, i + |a|, b)
  {
    assert text[i..i + |a + b|][..|a|] == a && text[i..i + |a + b|][|a|..] == b;
  }

  lemma AtFits(text: string, i: nat, piece: string)
    requires At(text, i, piece)
    ensures i + |piece| <= |text|
  {
  }

  lemma CharAt(text: string, p: nat, piece: string, i: nat)
    requires At(text, p, piece) && i < |piece|
    ensures p + i < |text| && text[p + i] == piece[i]
  {
    assert text[p + i] == text[p..p + |piece|][i];
  }

  // ---- Quoted strings and names ----

  function Quoted(raw: string): string {
    "\"" + raw + "\""
  }

  /** Every quote in the text is escaped, and every escape is complete. */
  predicate Escaped(raw: string) {
    raw == "" || (raw[0] != '"' && if raw[0] == '\\' then |raw| > 1 && Escaped(raw[2..]) else Escaped(raw[1..]))
  }

  predicate Plain(c: char) {
    c != '"' && c != '{' && c != '}' && c != '[' && c != ']' && c != ',' && c != ':'
  }

  /** A name of letters, digits and the like. */
  predicate Name(k: string) {
    k != "" && forall i :: 0 <= i < |k| ==> Plain(k[i]) && k[i] != '\\'
  }

  /** The text ends in k behind a quote. */
  predicate LooksLike(raw: string, k: string) {
    |raw| > |k| && raw[|raw| - |k|..] == k && raw[|raw| - |k| - 1] == '"'
  }

  lemma {:induction false} QuoteIsEscaped(raw: string, j: nat)
    requires Escaped(raw) && j < |raw| && raw[j] == '"'
    ensures j > 0 && raw[j - 1] == '\\'
  {
    if raw[0] == '\\' {
      if j > 1 {
        QuoteIsEscaped(raw[2..], j - 2);
      }
    } else {
      QuoteIsEscaped(raw[1..], j - 1);
    }
  }

  /** The name between its quotes has neither quotes nor backslashes. */
  lemma InName(text: string, i: nat, k: string, m: nat)
    requires Name(k) && At(text, i, Quoted(k)) && i < m < i + 1 + |k|
    ensures m < |text| && text[m] != '"' && text[m] != '\\'
  {
    CharAt(text, i, Quoted(k), m - i);
    assert Quoted(k)[m - i] == k[m - i - 1];
  }

  lemma QuotesAt(text: string, i: nat, k: string)
    requires At(text, i, Quoted(k))
    ensures i + |k| + 2 <= |text| && text[i] == '"' && text[i + 1 + |k|] == '"'
  {
    CharAt(text, i, Quoted(k), 0);
    CharAt(text, i, Quoted(k), |k| + 1);
  }

  lemma NameNotEmpty(k: string)
    requires Name(k)
    ensures k != ""
  {
  }

  /** A quoted name that starts in a string before its closing quote ends with that quote. */
  lemma ClosesTogether(text: string, p: nat, raw: string, k: string, i: nat)
    requires Escaped(raw) && Name(k) && At(text, p, Quoted(raw)) && At(text, i, Quoted(k))
    requires p <= i < p + |raw| + 1
    ensures i + |k| == p + |raw|
  {
    hide At, Escaped, Name;
    var close, q := p + |raw| + 1, i + 1 + |k|;
    QuotesAt(text, i, k);
    CharAt(text, p, Quoted(raw), |raw| + 1);
    if close < q {
      InName(text, i, k, close);
    } else if q < close {
      CharAt(text, p, Quoted(raw), q - p);
      QuoteIsEscaped(raw, q - p - 1);
      CharAt(text, p, Quoted(raw), q - p - 1);
      NameNotEmpty(k);
      InName(text, i, k, q - 1);
    }
  }

  /** A quoted name starts in a string only at its opening quote, at an escaped quote, or at its closing quote;
      in the first two cases both end together. */
  lemma FoundInString(text: string, p: nat, raw: string, k: string, i: nat)
    requires Escaped(raw) && Name(k) && At(text, p, Quoted(raw)) && At(text, i, Quoted(k))
    requires p <= i <= p + |raw| + 1
    ensures i + 1 < |text|
    ensures i == p + |raw| + 1 ==> text[i + 1] == k[0]
    ensures i < p + |raw| + 1 ==> i + |k| == p + |raw|
    ensures i == p ==> raw == k
    ensures p < i < p + |raw| + 1 ==> LooksLike(raw, k)
  {
    hide At, Escaped;
    QuotesAt(text, i, k);
    CharAt(text, i, Quoted(k), 1);
    if i < p + |raw| + 1 {
      ClosesTogether(text, p, raw, k, i);
      NameAtEnd(text, p, raw, k, i);
    }
  }

  lemma NameAtEnd(text: string, p: nat, raw: string, k: string, i: nat)
    requires At(text, p, Quoted(raw)) && At(text, i, Quoted(k)) && p <= i && i + |k| == p + |raw|
    ensures |raw| >= |k| && raw[|raw| - |k|..] == k && (i > p ==> raw[|raw| - |k| - 1] == '"')
  {
    forall j | 0 <= j < |k| ensures raw[|raw| - |k| + j] == k[j] {
      CharAt(text, i, Quoted(k), j + 1);
      CharAt(text, p, Quoted(raw), |raw| - |k| + j + 1);
    }
    if i > p {
      CharAt(text, i, Quoted(k), 0);
      CharAt(text, p, Quoted(raw), i - p);
    }
  }

  // ---- Where a piece does not occur ----

  /** The piece starts nowhere between i and j. */
  ghost predicate Absent(text: string, i: nat, j: nat, piece: string) {
    forall m :: i <= m < j ==> !At(text, m, piece)
  }

  lemma AbsentInNothing(text: string, p: nat, piece: string)
    ensures Absent(text, p, p, piece)
  {
  }

  lemma FirstCharAt(text: string, m: nat, piece: string)
    requires piece != ""
    ensures At(text, m, piece) ==> m < |text| && text[m] == piece[0]
  {
    if At(text, m, piece) {
      CharAt(text, m, piece, 0);
    }
  }

  lemma AbsentInPlain(text: string, p: nat, plain: string, piece: string)
    requires At(text, p, plain) && forall i :: 0 <= i < |plain| ==> plain[i] != '"'
    requires piece != "" && piece[0] == '"'
    ensures Absent(text, p, p + |plain|, piece)
  {
    forall m | p <= m < p + |plain| ensures !At(text, m, piece) {
      CharAt(text, p, plain, m - p);
      FirstCharAt(text, m, piece);
    }
  }

  lemma AbsentJoins(text: string, i: nat, j: nat, l: nat, piece: string)
    requires Absent(text, i, j, piece) && Absent(text, j, l, piece)
    ensures Absent(text, i, l, piece)
  {
  }

  lemma WholeAt(text: string)
    ensures At(text, 0, text)
  {
  }

  lemma FoundFirst(text: string, piece: string, p: nat)
    requires p <= |text| && At(text, p, piece) && Absent(text, 0, p, piece)
    ensures Find(text, piece, 0) == Some(p)
  {
    hide At;
  }

  lemma FoundNowhere(text: string, piece: string)
    requires piece != "" && Absent(text, 0, |text|, piece)
    ensures Find(text, piece, 0) == None
  {
    AtEnd(text, piece);
    hide At;
  }

  lemma AtEnd(text: string, piece: string)
    requires piece != ""
    ensures !At(text, |text|, piece)
  {
  }
}
