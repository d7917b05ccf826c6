/** Deleting every member of a given name from JSON text in place, by searching for the name. */
module JsonMembers {
  import opened MarlinPacket
  import opened TextSearch

  // ---- Documents and their compact text ----

  /** raw: the text between the quotes, escapes and all. An object's entries have keys, an array's do not. */
  datatype Json =
    | Leaf(text: string)
    | Text(raw: string)
    | Node(keyed: bool, entries: Entries)

  datatype Entries = End | More(key: Option<string>, value: Json, rest: Entries)

  predicate Proper(v: Json) {
    match v
    case Leaf(text) => forall i :: 0 <= i < |text| ==> Plain(text[i])
    case Text(raw) => Escaped(raw)
    case Node(keyed, entries) => ProperAll(entries, keyed)
  }

  predicate ProperAll(es: Entries, keyed: bool) {
    match es
    case End => true
    case More(key, value, rest) =>
      keyed == key.Some? && (keyed ==> Escaped(key.value)) && Proper(value) && ProperAll(rest, keyed)
  }

  function Label(key: Option<string>): string {
    if key == None then "" else Quoted(key.value) + ":"
  }

  function Open(keyed: bool): string {
    if keyed then "{" else "["
  }

  function Close(keyed: bool): string {
    if keyed then "}" else "]"
  }

  function Print(v: Json): string {
    match v
    case Leaf(text) => text
    case Text(raw) => Quoted(raw)
    case Node(keyed, entries) => Open(keyed) + PrintAll(entries) + Close(keyed)
  }

  function PrintAll(es: Entries): string
    decreases es, 0
  {
    match es
    case End => ""
    case More(key, value, rest) => Label(key) + Print(value) + Tail(rest)
  }

  /** The entries after another one. */
  function Tail(es: Entries): string
    decreases es, 1
  {
    if es.End? then "" else "," + PrintAll(es)
  }

  // ---- Deleting members ----

  predicate Has(v: Json, k: string) {
    v.Node? && HasAny(v.entries, k)
  }

  predicate HasAny(es: Entries, k: string) {
    es.More? && (es.key == Some(k) || Has(es.value, k) || HasAny(es.rest, k))
  }

  /** The document without the members named k, at any depth. */
  function Delete(v: Json, k: string): Json {
    if v.Node? then v.(entries := DeleteAll(v.entries, k)) else v
  }

  function DeleteAll(es: Entries, k: string): Entries {
    match es
    case End => End
    case More(key, value, rest) =>
      if key == Some(k) then DeleteAll(rest, k) else More(key, Delete(value, k), DeleteAll(rest, k))
  }

  /** The document without the member named k that comes first in its text. */
  function DeleteOne(v: Json, k: string): Json {
    if v.Node? then v.(entries := DeleteOneOf(v.entries, k)) else v
  }

  function DeleteOneOf(es: Entries, k: string): Entries {
    match es
    case End => End
    case More(key, value, rest) =>
      if key == Some(k) then rest
      else if Has(value, k) then More(key, DeleteOne(value, k), rest)
      else More(key, value, DeleteOneOf(rest, k))
  }

  /** How many members are named k. */
  function Count(v: Json, k: string): nat {
    if v.Node? then CountAll(v.entries, k) else 0
  }

  function CountAll(es: Entries, k: string): nat {
    match es
    case End => 0
    case More(key, value, rest) => (if key == Some(k) then 1 else 0) + Count(value, k) + CountAll(rest, k)
  }

  predicate NoneLooksLike(v: Json, k: string) {
    v.Node? ==> NoneOfLooksLike(v.entries, k)
  }

  predicate NoneOfLooksLike(es: Entries, k: string) {
    match es
    case End => true
    case More(key, value, rest) =>
      (key.Some? ==> !LooksLike(key.value, k)) && NoneLooksLike(value, k) && NoneOfLooksLike(rest, k)
  }

  // ---- The search and the cut, as the program does them ----

  datatype Mode = Outside | Inside | Escape

  /** Where a member's value ends, and whether a comma was taken with it. */
  function ValueEnd(text: string, p: nat, depth: nat, mode: Mode): (r: (nat, bool))
    requires p <= |text|
    ensures p <= r.0 <= |text|
    decreases |text| - p
  {
    if p == |text| then (p, false) else
    var c := text[p];
    match mode
    case Escape => ValueEnd(text, p + 1, depth, Inside)
    case Inside => ValueEnd(text, p + 1, depth, if c == '\\' then Escape else if c == '"' then Outside else Inside)
    case Outside =>
      if c == '"' then ValueEnd(text, p + 1, depth, Inside)
      else if c == '{' || c == '[' then ValueEnd(text, p + 1, depth + 1, Outside)
      else if c == '}' || c == ']' then if depth == 0 then (p, false) else ValueEnd(text, p + 1, depth - 1, Outside)
      else if c == ',' && depth == 0 then (p + 1, true)
      else ValueEnd(text, p + 1, depth, Outside)
  }

  function SkipBlanksBack(text: string, p: nat): (r: nat)
    requires p <= |text|
    ensures r <= p
  {
    if p > 0 && text[p - 1] in " \n\r\t" then SkipBlanksBack(text, p - 1) else p
  }

  /** Where the cut of a last member begins: before blanks and one comma. */
  function CutStart(text: string, p: nat): (r: nat)
    requires p <= |text|
    ensures r <= p
  {
    var q := SkipBlanksBack(text, p);
    if q > 0 && text[q - 1] == ',' then q - 1 else q
  }

  function Pattern(k: string): string {
    Quoted(k) + ":"
  }

  /** The text without the member whose name stands at p. */
  function Cut(text: string, p: nat, k: string): (r: string)
    requires At(text, p, Pattern(k))
    ensures |r| < |text|
  {
    var (end, comma) := ValueEnd(text, p + |Pattern(k)|, 0, Outside);
    text[..if comma then p else CutStart(text, p)] + text[end..]
  }

  function Removed(text: string, k: string): string
    decreases |text|
  {
    var p := Find(text, Pattern(k), 0);
    if p == None then text else Removed(Cut(text, p.value, k), k)
  }

  // ---- Scanning a value ----

  lemma NodeAt(text: string, p: nat, v: Json)
    requires v.Node? && At(text, p, Print(v))
    ensures At(text, p, Open(v.keyed)) && At(text, p + 1, PrintAll(v.entries))
    ensures At(text, p + 1 + |PrintAll(v.entries)|, Close(v.keyed)) && |Print(v)| == |PrintAll(v.entries)| + 2
    ensures p + 1 + |PrintAll(v.entries)| < |text|
    ensures text[p] == Open(v.keyed)[0] && text[p + 1 + |PrintAll(v.entries)|] == Close(v.keyed)[0]
  {
    hide PrintAll;
    Split(text, p, Open(v.keyed) + PrintAll(v.entries), Close(v.keyed));
    Split(text, p, Open(v.keyed), PrintAll(v.entries));
    CharAt(text, p, Open(v.keyed), 0);
    CharAt(text, p + 1 + |PrintAll(v.entries)|, Close(v.keyed), 0);
  }

  /** Where the value of the first entry stands, and where the entries after it go on. */
  function ValueAt(p: nat, es: Entries): nat
    requires es.More?
  {
    p + |Label(es.key)|
  }

  function TailAt(p: nat, es: Entries): nat
    requires es.More?
  {
    ValueAt(p, es) + |Print(es.value)|
  }

  lemma EntryAt(text: string, p: nat, es: Entries)
    requires es.More? && At(text, p, PrintAll(es))
    ensures At(text, p, Label(es.key)) && At(text, ValueAt(p, es), Print(es.value))
    ensures At(text, TailAt(p, es), Tail(es.rest)) && TailAt(p, es) + |Tail(es.rest)| == p + |PrintAll(es)| <= |text|
    ensures es.rest.More? ==>
              && TailAt(p, es) < |text| && text[TailAt(p, es)] == ',' && At(text, TailAt(p, es), ",")
              && At(text, TailAt(p, es) + 1, PrintAll(es.rest))
              && TailAt(p, es) + 1 + |PrintAll(es.rest)| == p + |PrintAll(es)|
  {
    hide Label, Print;
    Split(text, p, Label(es.key) + Print(es.value), Tail(es.rest));
    Split(text, p, Label(es.key), Print(es.value));
    if es.rest.More? {
      Split(text, TailAt(p, es), ",", PrintAll(es.rest));
      CharAt(text, TailAt(p, es), ",", 0);
    }
  }

  lemma {:induction false} PassRaw(text: string, p: nat, depth: nat, raw: string)
    requires Escaped(raw) && At(text, p, raw + "\"")
    ensures p + |raw| + 1 <= |text|
    ensures ValueEnd(text, p, depth, Inside) == ValueEnd(text, p + |raw| + 1, depth, Outside)
    decreases |raw|
  {
    assert text[p] == text[p..p + |raw| + 1][0];
    if raw != "" {
      var n := if raw[0] == '\\' then 2 else 1;
      assert raw == raw[..n] + raw[n..];
      assert raw + "\"" == raw[..n] + (raw[n..] + "\"");
      Split(text, p, raw[..n], raw[n..] + "\"");
      PassRaw(text, p + n, depth, raw[n..]);
    }
  }

  lemma PassQuoted(text: string, p: nat, depth: nat, raw: string)
    requires Escaped(raw) && At(text, p, Quoted(raw))
    ensures p + |raw| + 2 <= |text|
    ensures ValueEnd(text, p, depth, Outside) == ValueEnd(text, p + |raw| + 2, depth, Outside)
  {
    assert Quoted(raw) == "\"" + (raw + "\"");
    Split(text, p, "\"", raw + "\"");
    assert text[p] == text[p..p + 1][0];
    PassRaw(text, p + 1, depth, raw);
  }

  lemma {:induction false} PassPlain(text: string, p: nat, depth: nat, leaf: string)
    requires At(text, p, leaf) && forall i :: 0 <= i < |leaf| ==> Plain(leaf[i])
    ensures ValueEnd(text, p, depth, Outside) == ValueEnd(text, p + |leaf|, depth, Outside)
    decreases |leaf|
  {
    if leaf != "" {
      assert leaf == leaf[..1] + leaf[1..];
      Split(text, p, leaf[..1], leaf[1..]);
      assert text[p] == text[p..p + 1][0] == leaf[0];
      PassPlain(text, p + 1, depth, leaf[1..]);
    }
  }

  lemma PassOne(text: string, p: nat, depth: nat, c: char)
    requires At(text, p, [c])
    ensures (c == '{' || c == '[') ==> ValueEnd(text, p, depth, Outside) == ValueEnd(text, p + 1, depth + 1, Outside)
    ensures (c == '}' || c == ']') && depth > 0 ==>
              ValueEnd(text, p, depth, Outside) == ValueEnd(text, p + 1, depth - 1, Outside)
    ensures c == ':' || (c == ',' && depth > 0) ==>
              ValueEnd(text, p, depth, Outside) == ValueEnd(text, p + 1, depth, Outside)
    ensures c == ',' && depth == 0 ==> ValueEnd(text, p, depth, Outside) == (p + 1, true)
    ensures (c == '}' || c == ']') && depth == 0 ==> ValueEnd(text, p, depth, Outside) == (p, false)
  {
    assert text[p] == text[p..p + 1][0];
  }

  /** The scan passes over a whole value, at any depth. */
  lemma {:induction false} PassValue(text: string, p: nat, depth: nat, v: Json)
    requires Proper(v) && At(text, p, Print(v))
    ensures p + |Print(v)| <= |text|
    ensures ValueEnd(text, p, depth, Outside) == ValueEnd(text, p + |Print(v)|, depth, Outside)
    decreases v
  {
    hide ValueEnd, PrintAll;
    match v
    case Leaf(leaf) => PassPlain(text, p, depth, leaf);
    case Text(raw) => PassQuoted(text, p, depth, raw);
    case Node(keyed, entries) =>
      NodeAt(text, p, v);
      PassOne(text, p, depth, Open(keyed)[0]);
      PassEntries(text, p + 1, depth + 1, entries, keyed);
      PassOne(text, p + 1 + |PrintAll(entries)|, depth + 1, Close(keyed)[0]);
  }

  lemma {:induction false} PassEntries(text: string, p: nat, depth: nat, es: Entries, keyed: bool)
    requires ProperAll(es, keyed) && At(text, p, PrintAll(es)) && depth > 0
    ensures p + |PrintAll(es)| <= |text|
    ensures ValueEnd(text, p, depth, Outside) == ValueEnd(text, p + |PrintAll(es)|, depth, Outside)
    decreases es
  {
    hide ValueEnd, At, Print, Label;
    if es.More? {
      EntryAt(text, p, es);
      PassLabel(text, p, depth, es.key);
      PassValue(text, ValueAt(p, es), depth, es.value);
      if es.rest.More? {
        PassOne(text, TailAt(p, es), depth, ',');
        PassEntries(text, TailAt(p, es) + 1, depth, es.rest, keyed);
      }
    } else {
      AtFits(text, p, "");
    }
  }

  lemma PassLabel(text: string, p: nat, depth: nat, key: Option<string>)
    requires At(text, p, Label(key)) && (key.Some? ==> Escaped(key.value))
    ensures p + |Label(key)| <= |text|
    ensures ValueEnd(text, p, depth, Outside) == ValueEnd(text, p + |Label(key)|, depth, Outside)
  {
    hide ValueEnd;
    if key.Some? {
      Split(text, p, Quoted(key.value), ":");
      PassQuoted(text, p, depth, key.value);
      PassOne(text, p + |Quoted(key.value)|, depth, ':');
    }
  }

  // ---- Where the name can be found ----

  lemma PatternAt(text: string, i: nat, k: string)
    requires At(text, i, Pattern(k))
    ensures At(text, i, Quoted(k)) && i + |k| + 3 <= |text| && text[i + 2 + |k|] == ':'
  {
    Split(text, i, Quoted(k), ":");
    CharAt(text, i + |k| + 2, ":", 0);
  }

  /** After a value the text ends, or goes on with one of three characters. */
  predicate Follows(text: string, q: nat) {
    q <= |text| && (q < |text| ==> text[q] == ',' || text[q] == ']' || text[q] == '}')
  }

  lemma AbsentInText(text: string, p: nat, raw: string, k: string)
    requires Escaped(raw) && Name(k) && At(text, p, Quoted(raw)) && Follows(text, p + |raw| + 2)
    ensures Absent(text, p, p + |raw| + 2, Pattern(k))
  {
    forall m | p <= m < p + |raw| + 2 ensures !At(text, m, Pattern(k)) {
      if At(text, m, Pattern(k)) {
        PatternAt(text, m, k);
        FoundInString(text, p, raw, k, m);
      }
    }
  }

  lemma AbsentInLabel(text: string, p: nat, key: Option<string>, k: string)
    requires At(text, p, Label(key)) && Name(k)
    requires key.Some? ==> Escaped(key.value) && key.value != k && !LooksLike(key.value, k)
    ensures Absent(text, p, p + |Label(key)|, Pattern(k))
  {
    if key.Some? {
      var raw := key.value;
      Split(text, p, Quoted(raw), ":");
      CharAt(text, p + |raw| + 2, ":", 0);
      forall m | p <= m < p + |raw| + 3 ensures !At(text, m, Pattern(k)) {
        if At(text, m, Pattern(k)) {
          if m == p + |raw| + 2 {
            CharAt(text, m, Pattern(k), 0);
          } else {
            PatternAt(text, m, k);
            FoundInString(text, p, raw, k, m);
          }
        }
      }
    }
  }

  /** Without a member named k the pattern starts nowhere in a value. */
  lemma {:induction false} AbsentInValue(text: string, p: nat, v: Json, k: string)
    requires Proper(v) && Name(k) && !Has(v, k) && NoneLooksLike(v, k)
    requires At(text, p, Print(v)) && Follows(text, p + |Print(v)|)
    ensures Absent(text, p, p + |Print(v)|, Pattern(k))
    decreases v
  {
    hide At, Absent, PrintAll;
    match v
    case Leaf(leaf) => AbsentInPlain(text, p, leaf, Pattern(k));
    case Text(raw) => AbsentInText(text, p, raw, k);
    case Node(keyed, entries) =>
      NodeAt(text, p, v);
      var q := p + 1 + |PrintAll(entries)|;
      AbsentInPlain(text, p, Open(keyed), Pattern(k));
      AbsentInEntries(text, p + 1, entries, keyed, k);
      AbsentInPlain(text, q, Close(keyed), Pattern(k));
      AbsentJoins(text, p, p + 1, q, Pattern(k));
      AbsentJoins(text, p, q, q + 1, Pattern(k));
  }

  lemma {:induction false} AbsentInEntries(text: string, p: nat, es: Entries, keyed: bool, k: string)
    requires ProperAll(es, keyed) && Name(k) && !HasAny(es, k) && NoneOfLooksLike(es, k)
    requires At(text, p, PrintAll(es)) && Follows(text, p + |PrintAll(es)|)
    ensures Absent(text, p, p + |PrintAll(es)|, Pattern(k))
    decreases es
  {
    hide At, Absent, Follows, LooksLike, Print, Label, Name;
    if es.More? {
      EntryAt(text, p, es);
      var q, r := ValueAt(p, es), TailAt(p, es);
      AbsentInLabel(text, p, es.key, k);
      TailFollows(text, r, es.rest);
      AbsentInValue(text, q, es.value, k);
      AbsentJoins(text, p, q, r, Pattern(k));
      if es.rest.More? {
        AbsentInPlain(text, r, ",", Pattern(k));
        AbsentInEntries(text, r + 1, es.rest, keyed, k);
        AbsentJoins(text, p, r, r + 1, Pattern(k));
        AbsentJoins(text, p, r + 1, r + |Tail(es.rest)|, Pattern(k));
      }
    } else {
      AbsentInNothing(text, p, Pattern(k));
    }
  }

  lemma TailFollows(text: string, r: nat, rest: Entries)
    requires At(text, r, Tail(rest)) && Follows(text, r + |Tail(rest)|)
    ensures Follows(text, r)
  {
    if rest.More? {
      CharAt(text, r, Tail(rest), 0);
    }
  }

  /** Where the first member named k begins in a value's text. */
  function Offset(v: Json, k: string): nat
    requires Has(v, k)
  {
    1 + OffsetIn(v.entries, k)
  }

  function OffsetIn(es: Entries, k: string): nat
    requires HasAny(es, k)
  {
    if es.key == Some(k) then 0
    else if Has(es.value, k) then |Label(es.key)| + Offset(es.value, k)
    else |Label(es.key)| + |Print(es.value)| + 1 + OffsetIn(es.rest, k)
  }

  lemma {:induction false} NothingToDelete(v: Json, k: string)
    requires !Has(v, k)
    ensures Delete(v, k) == v
  {
    if v.Node? {
      NothingToDeleteIn(v.entries, k);
    }
  }

  lemma {:induction false} NothingToDeleteIn(es: Entries, k: string)
    requires !HasAny(es, k)
    ensures DeleteAll(es, k) == es
  {
    if es.More? {
      NothingToDelete(es.value, k);
      NothingToDeleteIn(es.rest, k);
    }
  }

  /** The first place where the pattern occurs is the first member named k. */
  lemma {:induction false} FirstInValue(text: string, p: nat, v: Json, k: string)
    requires Proper(v) && Name(k) && Has(v, k) && NoneLooksLike(Delete(v, k), k)
    requires At(text, p, Print(v)) && Follows(text, p + |Print(v)|)
    ensures At(text, p + Offset(v, k), Pattern(k)) && Absent(text, p, p + Offset(v, k), Pattern(k))
    decreases v
  {
    hide At, Absent, PrintAll;
    NodeAt(text, p, v);
    AbsentInPlain(text, p, Open(v.keyed), Pattern(k));
    FirstInEntries(text, p + 1, v.entries, v.keyed, k);
    AbsentJoins(text, p, p + 1, p + Offset(v, k), Pattern(k));
  }

  lemma {:induction false} FirstInEntries(text: string, p: nat, es: Entries, keyed: bool, k: string)
    requires ProperAll(es, keyed) && Name(k) && HasAny(es, k) && NoneOfLooksLike(DeleteAll(es, k), k)
    requires At(text, p, PrintAll(es)) && Follows(text, p + |PrintAll(es)|)
    ensures At(text, p + OffsetIn(es, k), Pattern(k)) && Absent(text, p, p + OffsetIn(es, k), Pattern(k))
    decreases es
  {
    hide At, Absent, Follows, LooksLike, Print, Name, PrintAll;
    EntryAt(text, p, es);
    if es.key == Some(k) {
      AbsentInNothing(text, p, Pattern(k));
    } else {
      hide Label;
      var q, r := ValueAt(p, es), TailAt(p, es);
      AbsentInLabel(text, p, es.key, k);
      TailFollows(text, r, es.rest);
      if Has(es.value, k) {
        FirstInValue(text, q, es.value, k);
        AbsentJoins(text, p, q, q + Offset(es.value, k), Pattern(k));
      } else {
        NothingToDelete(es.value, k);
        AbsentInValue(text, q, es.value, k);
        AbsentJoins(text, p, q, r, Pattern(k));
        AbsentInPlain(text, r, ",", Pattern(k));
        AbsentJoins(text, p, r, r + 1, Pattern(k));
        FirstInEntries(text, r + 1, es.rest, keyed, k);
        AbsentJoins(text, p, r + 1, r + 1 + OffsetIn(es.rest, k), Pattern(k));
      }
    }
  }

  // ---- What the cut leaves ----

  /** Text with what stands from p to q replaced. */
  function Replaced(text: string, p: nat, q: nat, piece: string): string
    requires p <= q <= |text|
  {
    text[..p] + piece + text[q..]
  }

  lemma TakeAt(text: string, i: nat, piece: string)
    requires At(text, i, piece)
    ensures text[..i + |piece|] == text[..i] + piece && text[i..] == piece + text[i + |piece|..]
  {
  }

  lemma Regroup(a: string, b: string, c: string, d: string, e: string)
    ensures (a + b) + c + (d + e) == a + (b + c + d) + e
  {
  }

  /** The cut turns a value's text into that of the value without its first member named k. */
  lemma {:induction false} CutInValue(text: string, p: nat, v: Json, k: string)
    requires Proper(v) && Has(v, k) && At(text, p, Print(v)) && At(text, p + Offset(v, k), Pattern(k))
    ensures Cut(text, p + Offset(v, k), k) == Replaced(text, p, p + |Print(v)|, Print(DeleteOne(v, k)))
    decreases v
  {
    hide Cut, At, PrintAll;
    NodeAt(text, p, v);
    var q := p + 1 + |PrintAll(v.entries)|;
    CutInEntries(text, p + 1, v.entries, v.keyed, k);
    TakeAt(text, p, Open(v.keyed));
    TakeAt(text, q, Close(v.keyed));
    Regroup(text[..p], Open(v.keyed), PrintAll(DeleteOneOf(v.entries, k)), Close(v.keyed), text[q + 1..]);
  }

  /** In a list of entries the comma before the last entry goes with it. */
  lemma {:induction false} CutInEntries(text: string, p: nat, es: Entries, keyed: bool, k: string)
    requires ProperAll(es, keyed) && HasAny(es, k) && At(text, p, PrintAll(es))
    requires At(text, p + OffsetIn(es, k), Pattern(k))
    requires 0 < p && (text[p - 1] == '{' || text[p - 1] == '[' || text[p - 1] == ',')
    requires p + |PrintAll(es)| < |text| && (text[p + |PrintAll(es)|] == '}' || text[p + |PrintAll(es)|] == ']')
    ensures var left := DeleteOneOf(es, k);
      Cut(text, p + OffsetIn(es, k), k)
      == Replaced(text, if left.End? && text[p - 1] == ',' then p - 1 else p, p + |PrintAll(es)|, PrintAll(left))
    decreases es
  {
    hide At, Cut, Print, PrintAll, Label, Pattern, Proper, Replaced;
    if es.key == Some(k) {
      CutHere(text, p, es, k);
    } else if Has(es.value, k) {
      EntryAt(text, p, es);
      CutInValue(text, ValueAt(p, es), es.value, k);
      CutWithin(text, p, es, DeleteOne(es.value, k));
    } else {
      EntryAt(text, p, es);
      CutInEntries(text, TailAt(p, es) + 1, es.rest, keyed, k);
      CutBehind(text, p, es, DeleteOneOf(es.rest, k));
    }
  }

  /** Replacing the first value replaces the entries' text. */
  lemma CutWithin(text: string, p: nat, es: Entries, value: Json)
    requires es.More? && At(text, p, PrintAll(es))
    ensures At(text, ValueAt(p, es), Print(es.value)) && p + |PrintAll(es)| <= |text|
    ensures Replaced(text, ValueAt(p, es), TailAt(p, es), Print(value))
         == Replaced(text, p, p + |PrintAll(es)|, PrintAll(es.(value := value)))
  {
    hide At, Label, Print;
    EntryAt(text, p, es);
    TakeAt(text, p, Label(es.key));
    TakeAt(text, TailAt(p, es), Tail(es.rest));
    Regroup(text[..p], Label(es.key), Print(value), Tail(es.rest), text[p + |PrintAll(es)|..]);
  }

  /** Replacing the later entries, with their comma if none is left, replaces the entries' text. */
  lemma CutBehind(text: string, p: nat, es: Entries, rest: Entries)
    requires es.More? && es.rest.More? && At(text, p, PrintAll(es))
    ensures TailAt(p, es) + 1 <= p + |PrintAll(es)| <= |text|
    ensures Replaced(text, if rest.End? then TailAt(p, es) else TailAt(p, es) + 1, p + |PrintAll(es)|, PrintAll(rest))
         == Replaced(text, p, p + |PrintAll(es)|, PrintAll(es.(rest := rest)))
  {
    hide At, Label, Print, PrintAll, Tail;
    EntryAt(text, p, es);
    var r, after := TailAt(p, es), text[p + |PrintAll(es)|..];
    TakeAt(text, p, Label(es.key));
    TakeAt(text, ValueAt(p, es), Print(es.value));
    TakeAt(text, r, ",");
    var front := if rest.End? then "" else ",";
    assert text[..if rest.End? then r else r + 1] == text[..p] + Label(es.key) + Print(es.value) + front;
    PrintedBehind(es, rest);
    RegroupBehind(text[..p], Label(es.key), Print(es.value), front, PrintAll(rest), after);
  }

  lemma PrintedBehind(es: Entries, rest: Entries)
    requires es.More?
    ensures PrintAll(es.(rest := rest))
         == Label(es.key) + Print(es.value) + ((if rest.End? then "" else ",") + PrintAll(rest))
  {
    hide Label, Print;
  }

  lemma RegroupBehind(a: string, b: string, c: string, d: string, e: string, f: string)
    ensures (a + b + c + d) + e + f == a + (b + c + (d + e)) + f
  {
  }

  lemma OneAt(text: string, i: nat)
    requires i < |text|
    ensures At(text, i, [text[i]])
  {
  }

  lemma NothingPrinted(es: Entries)
    requires es.End?
    ensures PrintAll(es) == ""
  {
  }

  lemma CutIs(text: string, p: nat, k: string, end: nat, comma: bool)
    requires At(text, p, Pattern(k)) && ValueEnd(text, p + |Pattern(k)|, 0, Outside) == (end, comma)
    ensures end <= |text| && Cut(text, p, k) == text[..if comma then p else CutStart(text, p)] + text[end..]
  {
  }

  lemma CutStartIs(text: string, p: nat)
    requires 0 < p <= |text| && (text[p - 1] == '{' || text[p - 1] == '[' || text[p - 1] == ',')
    ensures CutStart(text, p) == if text[p - 1] == ',' then p - 1 else p
  {
  }

  lemma CutHere(text: string, p: nat, es: Entries, k: string)
    requires es.More? && es.key == Some(k) && Proper(es.value) && At(text, p, PrintAll(es)) && At(text, p, Pattern(k))
    requires 0 < p && (text[p - 1] == '{' || text[p - 1] == '[' || text[p - 1] == ',')
    requires p + |PrintAll(es)| < |text| && (text[p + |PrintAll(es)|] == '}' || text[p + |PrintAll(es)|] == ']')
    ensures Cut(text, p, k)
         == Replaced(text, if es.rest.End? && text[p - 1] == ',' then p - 1 else p, p + |PrintAll(es)|, PrintAll(es.rest))
  {
    hide ValueEnd, At, Print, Cut, CutStart, PrintAll;
    EntryAt(text, p, es);
    assert ValueAt(p, es) == p + |Pattern(k)|;
    PassValue(text, ValueAt(p, es), 0, es.value);
    if es.rest.More? {
      CutMiddle(text, p, es, k);
    } else {
      CutLast(text, p, TailAt(p, es), k);
      NothingPrinted(es.rest);
    }
  }

  /** A member with another behind it goes with the comma after it. */
  lemma CutMiddle(text: string, p: nat, es: Entries, k: string)
    requires es.More? && es.rest.More? && At(text, p, PrintAll(es)) && At(text, p, Pattern(k))
    requires TailAt(p, es) <= |text|
    requires ValueEnd(text, p + |Pattern(k)|, 0, Outside) == ValueEnd(text, TailAt(p, es), 0, Outside)
    ensures p + |PrintAll(es)| <= |text| && Cut(text, p, k) == Replaced(text, p, p + |PrintAll(es)|, PrintAll(es.rest))
  {
    hide ValueEnd, At, Print, Cut, CutStart, PrintAll, Label;
    EntryAt(text, p, es);
    var q, r := p + |PrintAll(es)|, TailAt(p, es);
    PassOne(text, r, 0, ',');
    CutIs(text, p, k, r + 1, true);
    TakeAt(text, r + 1, PrintAll(es.rest));
    assert text[..p] + (PrintAll(es.rest) + text[q..]) == text[..p] + PrintAll(es.rest) + text[q..];
  }

  /** The last member goes with the comma before it. */
  lemma CutLast(text: string, p: nat, r: nat, k: string)
    requires At(text, p, Pattern(k)) && r < |text| && (text[r] == '}' || text[r] == ']')
    requires 0 < p <= r && (text[p - 1] == '{' || text[p - 1] == '[' || text[p - 1] == ',')
    requires ValueEnd(text, p + |Pattern(k)|, 0, Outside) == ValueEnd(text, r, 0, Outside)
    ensures Cut(text, p, k) == Replaced(text, if text[p - 1] == ',' then p - 1 else p, r, "")
  {
    hide ValueEnd, At, Cut, CutStart;
    OneAt(text, r);
    PassOne(text, r, 0, text[r]);
    CutIs(text, p, k, r, false);
    CutStartIs(text, p);
  }

  // ---- Deleting one member after another ----

  /** Deleting the first member named k leaves one less, and does not change what is left in the end. */
  lemma {:induction false} DeleteOneFacts(v: Json, k: string)
    requires Proper(v) && Has(v, k)
    ensures Proper(DeleteOne(v, k)) && Count(DeleteOne(v, k), k) < Count(v, k)
    ensures Delete(DeleteOne(v, k), k) == Delete(v, k)
  {
    DeleteOneOfFacts(v.entries, v.keyed, k);
  }

  lemma {:induction false} DeleteOneOfFacts(es: Entries, keyed: bool, k: string)
    requires ProperAll(es, keyed) && HasAny(es, k)
    ensures ProperAll(DeleteOneOf(es, k), keyed) && CountAll(DeleteOneOf(es, k), k) < CountAll(es, k)
    ensures DeleteAll(DeleteOneOf(es, k), k) == DeleteAll(es, k)
  {
    hide Escaped, Proper;
    if es.key != Some(k) {
      if Has(es.value, k) {
        DeleteOneFacts(es.value, k);
      } else {
        DeleteOneOfFacts(es.rest, keyed, k);
      }
    }
  }

  /** Cutting members out of the printed text prints the document without them. */
  lemma {:induction false} RemovedIsDeleted(v: Json, k: string)
    requires Proper(v) && Name(k) && NoneLooksLike(Delete(v, k), k)
    ensures Removed(Print(v), k) == Print(Delete(v, k))
    decreases Count(v, k)
  {
    hide At, Cut, Print, Delete, Absent, NoneLooksLike, Proper, Name, Has;
    var text := Print(v);
    WholeAt(text);
    if Has(v, k) {
      FirstInValue(text, 0, v, k);
      PatternAt(text, Offset(v, k), k);
      FoundFirst(text, Pattern(k), Offset(v, k));
      CutInValue(text, 0, v, k);
      assert Replaced(text, 0, |text|, Print(DeleteOne(v, k))) == Print(DeleteOne(v, k));
      DeleteOneFacts(v, k);
      RemovedIsDeleted(DeleteOne(v, k), k);
    } else {
      NothingToDelete(v, k);
      AbsentInValue(text, 0, v, k);
      FoundNowhere(text, Pattern(k));
    }
  }

  /** What remains has no occurrence of the pattern. */
  lemma {:induction false} NothingRemains(text: string, k: string, i: nat)
    ensures !At(Removed(text, k), i, Pattern(k))
    decreases |text|
  {
    hide Cut;
    var p := Find(text, Pattern(k), 0);
    if p.Some? {
      NothingRemains(Cut(text, p.value, k), k, i);
    }
  }

  /** A key that looks like k shows the pattern in the text. */
  lemma ShownByKey(text: string, p: nat, key: string, k: string) returns (m: nat)
    requires LooksLike(key, k) && At(text, p, Label(Some(key)))
    ensures At(text, m, Pattern(k))
  {
    var n := |key| - |k| - 1;
    assert key == key[..n] + "\"" + k;
    assert Label(Some(key)) == ("\"" + key[..n]) + Pattern(k);
    Split(text, p, "\"" + key[..n], Pattern(k));
    m := p + n + 1;
  }

  lemma {:induction false} ShownInValue(text: string, p: nat, v: Json, k: string) returns (m: nat)
    requires !NoneLooksLike(v, k) && At(text, p, Print(v))
    ensures At(text, m, Pattern(k))
    decreases v
  {
    hide At, PrintAll;
    NodeAt(text, p, v);
    m := ShownInEntries(text, p + 1, v.entries, k);
  }

  lemma {:induction false} ShownInEntries(text: string, p: nat, es: Entries, k: string) returns (m: nat)
    requires !NoneOfLooksLike(es, k) && At(text, p, PrintAll(es))
    ensures At(text, m, Pattern(k))
    decreases es
  {
    hide At, Print, Label, LooksLike;
    EntryAt(text, p, es);
    if es.key.Some? && LooksLike(es.key.value, k) {
      m := ShownByKey(text, p, es.key.value, k);
    } else if !NoneLooksLike(es.value, k) {
      m := ShownInValue(text, ValueAt(p, es), es.value, k);
    } else {
      m := ShownInEntries(text, TailAt(p, es) + 1, es.rest, k);
    }
  }

  /** The cuts in the printed text amount to deleting the members named k, at all depths, exactly when no key
      that stays ends in an escaped quote and the name. */
  lemma RemovedIsDeletedIff(v: Json, k: string)
    requires Proper(v) && Name(k)
    ensures Removed(Print(v), k) == Print(Delete(v, k)) <==> NoneLooksLike(Delete(v, k), k)
  {
    hide At, Print, Delete, NoneLooksLike, Removed, Proper, Name;
    if NoneLooksLike(Delete(v, k), k) {
      RemovedIsDeleted(v, k);
    } else {
      var text := Print(Delete(v, k));
      WholeAt(text);
      var m := ShownInValue(text, 0, Delete(v, k), k);
      NothingRemains(Print(v), k, m);
    }
  }

  /** The member "a\"id" loses a part of its name when "id" is to be deleted. */
  lemma EscapedNameIsCut(value: string)
    requires Proper(Leaf(value))
    ensures var v := Node(true, More(Some("a\\\"id"), Leaf(value), End));
      Delete(v, "id") == v && Removed(Print(v), "id") != Print(v)
  {
    hide Removed, Print;
    var raw := "a\\\"id";
    var v := Node(true, More(Some(raw), Leaf(value), End));
    assert Escaped("id") by {
      assert "id"[1..] == "d" && "d"[1..] == "";
    }
    assert Escaped(raw) by {
      assert raw[1..][2..] == "id";
    }
    assert raw != "id" && LooksLike(raw, "id") by {
      assert |raw| == 5 && raw[3..] == "id";
    }
    assert ProperAll(End, true) && ProperAll(v.entries, true);
    assert !HasAny(End, "id") && !HasAny(v.entries, "id");
    NothingToDelete(v, "id");
    assert !NoneOfLooksLike(v.entries, "id");
    RemovedIsDeletedIff(v, "id");
  }

  // ---- In place ----

  const NUL: char := '\0'

  /** A buffer holds a text: it starts with it, and a NUL follows. */
  predicate Holds(buffer: seq<char>, text: string) {
    text + [NUL] <= buffer && NUL !in text
  }

  function ModeOf(inString: bool, escape: bool): Mode {
    if !inString then Outside else if escape then Escape else Inside
  }

  method MemberValueEnd(json: array<char>, start: nat, limit: nat) returns (end: nat, comma: bool)
    requires start <= limit <= json.Length
    ensures (end, comma) == ValueEnd(json[..limit], start, 0, Outside)
  {
    var p, depth, inString, escape := start, 0, false, false;
    while p < limit
      invariant start <= p <= limit && depth >= 0
      invariant ValueEnd(json[..limit], start, 0, Outside) == ValueEnd(json[..limit], p, depth, ModeOf(inString, escape))
    {
      var c := json[p];
      if inString {
        if escape {
          escape := false;
        } else if c == '\\' {
          escape := true;
        } else if c == '"' {
          inString := false;
        }
        p := p + 1;
        continue;
      }
      if c == '"' {
        inString, escape := true, false;
      } else if c == '{' || c == '[' {
        depth := depth + 1;
      } else if c == '}' || c == ']' {
        if depth == 0 {
          return p, false;
        }
        depth := depth - 1;
      } else if c == ',' && depth == 0 {
        return p + 1, true;
      }
      p := p + 1;
    }
    return p, false;
  }

  method BackOverComma(json: array<char>, field: nat, ghost text: string) returns (start: nat)
    requires field <= |text| <= json.Length && json[..|text|] == text
    ensures start == CutStart(text, field)
  {
    start := field;
    while start > 0 && json[start - 1] in " \n\r\t"
      invariant start <= field && SkipBlanksBack(text, field) == SkipBlanksBack(text, start)
    {
      assert json[start - 1] == text[start - 1];
      start := start - 1;
    }
    assert start > 0 ==> json[start - 1] == text[start - 1];
    if start > 0 && json[start - 1] == ',' {
      start := start - 1;
    }
  }

  /** Moves the text from end on down to start. */
  method CloseGap(json: array<char>, start: nat, end: nat, n: nat, ghost text: string)
    requires start <= end <= n == |text| && Holds(json[..], text)
    modifies json
    ensures Holds(json[..], text[..start] + text[end..])
  {
    ghost var before := json[..];
    assert before[n] == (text + [NUL])[n] && before[..n] == text;
    forall i | 0 <= i <= n - end {
      json[start + i] := json[end + i];
    }
    ghost var left := text[..start] + text[end..];
    forall i | 0 <= i <= |left| ensures json[i] == (left + [NUL])[i] {
      if i >= start {
        assert json[i] == before[end + (i - start)];
      }
    }
    assert (left + [NUL]) == json[..][..|left| + 1];
  }

  lemma PatternIs(k: string)
    ensures Pattern(k) == "\"" + k + "\":"
  {
  }

  lemma RemovedGoesOn(text: string, k: string)
    ensures var p := Find(text, Pattern(k), 0);
      Removed(text, k) == if p == None then text else Removed(Cut(text, p.value, k), k)
  {
  }

  /** Cuts out the member whose name stands at field. */
  method CutMember(json: array<char>, field: nat, key: string, n: nat, ghost text: string)
    requires n == |text| && Holds(json[..], text) && At(text, field, Pattern(key))
    modifies json
    ensures Holds(json[..], Cut(text, field, key))
  {
    hide ValueEnd, CutStart, Cut;
    PatternIs(key);
    assert json[..n] == text;
    var end, comma := MemberValueEnd(json, field + |"\"" + key + "\":"|, n);
    var start := field;
    if !comma {
      start := BackOverComma(json, start, text);
    }
    CutIs(text, field, key, end, comma);
    CloseGap(json, start, end, n, text);
  }

  method RemoveMember(json: array<char>, key: string, ghost text: string)
    requires Holds(json[..], text) && NUL !in key
    modifies json
    ensures Holds(json[..], if |key| + 4 >= 64 then text else Removed(text, key))
  {
    hide Cut, Holds, Find, Pattern, ValueEnd, CutStart;
    if |key| + 4 >= 64 {
      return;
    }
    var pattern := "\"" + key + "\":";
    PatternIs(key);
    ghost var now := text;
    var n := Length(json, now);
    var field := Find(json[..n], pattern, 0);
    while field.Some?
      invariant Holds(json[..], now) && n == |now| <= json.Length && json[..n] == now
      invariant field == Find(now, Pattern(key), 0) && Removed(now, key) == Removed(text, key)
      decreases |now|
    {
      CutMember(json, field.value, key, n, now);
      RemovedGoesOn(now, key);
      now := Cut(now, field.value, key);
      n := Length(json, now);
      field := Find(json[..n], pattern, 0);
    }
  }

  method Length(json: array<char>, ghost text: string) returns (n: nat)
    requires Holds(json[..], text)
    ensures n == |text| < json.Length && json[..n] == text
  {
    n := 0;
    assert forall i :: 0 <= i <= |text| ==> json[i] == (text + [NUL])[i];
    while json[n] != NUL
      invariant n <= |text|
      decreases |text| - n
    {
      n := n + 1;
    }
  }
}
