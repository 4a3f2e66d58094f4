/** One journal line per stored item: fields joined by a delimiter byte, and read back field by field. */
module Journal {
  import opened OrderTypes

  const DELIM: char := 3 as char
  const COMMA: char := ','
  const COMMA_REPLACEMENT: char := 4 as char
  const TWO_32: nat := 0x1_0000_0000

  // ---------- splitting and joining ----------

  /** The fields of a line; one more than it has delimiters. */
  function Split(line: string): (r: seq<string>)
    ensures r != []
  {
    if line == "" then [""]
    else
      var rest := Split(line[1..]);
      if line[0] == DELIM then [""] + rest else [[line[0]] + rest[0]] + rest[1..]
  }

  function Join(fields: seq<string>): string
    requires fields != []
  {
    if |fields| == 1 then fields[0] else fields[0] + [DELIM] + Join(fields[1..])
  }

  lemma {:induction false} SplitPlain(s: string)
    requires DELIM !in s
    ensures Split(s) == [s]
  {
    if s != "" {
      SplitPlain(s[1..]);
      assert [s[0]] + s[1..] == s;
    }
  }

  lemma {:induction false} SplitFirst(s: string, rest: string)
    requires DELIM !in s
    ensures Split(s + [DELIM] + rest) == [s] + Split(rest)
  {
    var line := s + [DELIM] + rest;
    if s == "" {
      assert line[1..] == rest;
    } else {
      SplitFirst(s[1..], rest);
      assert line[1..] == s[1..] + [DELIM] + rest;
      assert [s[0]] + s[1..] == s;
    }
  }

  /** Fields without the delimiter come back as they went in. */
  lemma {:induction false} SplitJoin(fields: seq<string>)
    requires fields != [] && forall i :: 0 <= i < |fields| ==> DELIM !in fields[i]
    ensures Split(Join(fields)) == fields
  {
    if |fields| == 1 {
      SplitPlain(fields[0]);
      assert fields == [fields[0]];
    } else {
      SplitJoin(fields[1..]);
      SplitFirst(fields[0], Join(fields[1..]));
      assert [fields[0]] + fields[1..] == fields;
    }
  }

  // ---------- numbers ----------

  function DecDigit(d: nat): char
    requires d < 10
  {
    ('0' as int + d) as char
  }

  function Decimal(n: nat): string {
    if n < 10 then [DecDigit(n)] else Decimal(n / 10) + [DecDigit(n % 10)]
  }

  /** Reads digits only; anything else is no number. */
  function ParseDecimal(s: string): Option<nat> {
    if s == "" then None
    else
      var c := s[|s| - 1];
      if !('0' <= c <= '9') then None
      else if |s| == 1 then Some((c - '0') as nat)
      else match ParseDecimal(s[..|s| - 1])
        case None => None
        case Some(n) => Some(10 * n + (c - '0') as nat)
  }

  lemma {:induction false} DecimalRoundTrip(n: nat)
    ensures Decimal(n) != "" && ParseDecimal(Decimal(n)) == Some(n) && DELIM !in Decimal(n)
  {
    if n >= 10 {
      DecimalRoundTrip(n / 10);
      assert Decimal(n)[..|Decimal(n)| - 1] == Decimal(n / 10);
    }
  }

  // ---------- commas in session messages ----------

  function ReplaceAll(s: string, a: char, b: char): (r: string)
    ensures |r| == |s|
    ensures forall i :: 0 <= i < |s| ==> r[i] == if s[i] == a then b else s[i]
  {
    if s == "" then "" else [if s[0] == a then b else s[0]] + ReplaceAll(s[1..], a, b)
  }

  /** Replacing commas and putting them back restores a message exactly when it had no replacement byte. */
  lemma {:induction false} CommasRestored(s: string)
    ensures ReplaceAll(ReplaceAll(s, COMMA, COMMA_REPLACEMENT), COMMA_REPLACEMENT, COMMA) == s <==> COMMA_REPLACEMENT !in s
  {
    var t := ReplaceAll(ReplaceAll(s, COMMA, COMMA_REPLACEMENT), COMMA_REPLACEMENT, COMMA);
    if COMMA_REPLACEMENT in s {
      var i :| 0 <= i < |s| && s[i] == COMMA_REPLACEMENT;
      assert t[i] == COMMA;
    }
  }

  // ---------- items ----------

  /** What an item stores: payloads of the generated record types, and for a session message its raw text. */
  datatype Body<T> =
    | Command(command: T)
    | OrderOnly(order: T)
    | OrderAndReject(order: T, rej: T)
    | FillAndOrder(fill: T, attached: Option<T>)
    | SessionState(state: T)
    | SessionMessage(head: T, message: string)
    | DropCopyFill(dropCopy: T)
    | PnlAudit(audit: T)
    | NoBody

  datatype Item<T> = Item(id: nat, body: Body<T>)

  /**
    The record codecs: one text per payload; a session message is written as the fields before its raw text, the text as
    it is, and the fields after it.
   */
  datatype Codec<!T> = Codec(enc: T -> string, dec: string -> Option<T>,
                             head: T -> string, tail: T -> string, decMsg: string -> Option<(T, string)>)
  {
    function EncMsg(h: T, m: string): string {
      head(h) + m + tail(h)
    }
  }

  /** A payload whose text reads back as the payload and has no field delimiter in it. */
  predicate Clean<T(==)>(c: Codec<T>, p: T) {
    c.dec(c.enc(p)) == Some(p) && DELIM !in c.enc(p)
  }

  /** A session message as it is written, its commas replaced. */
  function Written(m: string): string {
    ReplaceAll(m, COMMA, COMMA_REPLACEMENT)
  }

  /** Reading makes up no delimiter: from a text without one it returns a message without one. */
  ghost predicate MakesUpNoDelimiter<T(!new)>(c: Codec<T>) {
    forall x :: DELIM !in x && c.decMsg(x).Some? ==> DELIM !in c.decMsg(x).value.1
  }

  /** What the codecs must do for one body: its own payloads are clean, and its own comma-free message text reads back. */
  predicate Faithful<T(==)>(c: Codec<T>, b: Body<T>) {
    match b
    case Command(p) => Clean(c, p)
    case OrderOnly(p) => Clean(c, p)
    case OrderAndReject(o, r) => Clean(c, o) && Clean(c, r)
    case FillAndOrder(f, o) => Clean(c, f) && (o.Some? ==> Clean(c, o.value))
    case SessionState(p) => Clean(c, p)
    case SessionMessage(h, m) =>
      DELIM !in c.head(h) && DELIM !in c.tail(h) && c.decMsg(c.EncMsg(h, Written(m))) == Some((h, Written(m)))
    case DropCopyFill(p) => Clean(c, p)
    case PnlAudit(p) => Clean(c, p)
    case NoBody => true
  }

  function KindText(b: Body): string {
    match b
    case Command(_) => "Command"
    case OrderOnly(_) => "Order"
    case OrderAndReject(_, _) => "OrderAndRej"
    case FillAndOrder(_, _) => "Fill"
    case SessionState(_) => "FixSessionCMEState"
    case SessionMessage(_, _) => "FixSessionCMEMsg"
    case DropCopyFill(_) => "FillDropCopy"
    case PnlAudit(_) => "PnLAuditTrailInfo"
    case NoBody => "Unknown"
  }

  /** The payload fields of an item. */
  function Fields<T>(c: Codec<T>, b: Body<T>): seq<string> {
    match b
    case Command(p) => [c.enc(p)]
    case OrderOnly(p) => [c.enc(p)]
    case OrderAndReject(o, r) => [c.enc(o), c.enc(r)]
    case FillAndOrder(f, None) => [c.enc(f)]
    case FillAndOrder(f, Some(o)) => [c.enc(f), c.enc(o)]
    case SessionState(p) => [c.enc(p)]
    case SessionMessage(h, m) => [c.EncMsg(h, Written(m))]
    case DropCopyFill(p) => [c.enc(p)]
    case PnlAudit(p) => [c.enc(p)]
    case NoBody => []
  }

  /** The line of an item; an item without a known kind gets an empty line. */
  function ToLine<T>(c: Codec<T>, it: Item<T>): string {
    if it.body.NoBody? then "" else Join([Decimal(it.id), KindText(it.body)] + Fields(c, it.body))
  }

  function MapSome<T, U>(o: Option<T>, f: T -> U): Option<U> {
    match o case None => None case Some(v) => Some(f(v))
  }

  function BodyFrom<T>(c: Codec<T>, kind: string, v: seq<string>): Option<Body<T>>
    requires |v| >= 3
  {
    if kind == "Command" then MapSome(c.dec(v[2]), (p: T) => Command(p))
    else if kind == "Order" then MapSome(c.dec(v[2]), (p: T) => OrderOnly(p))
    else if kind == "OrderAndRej" then
      if |v| < 4 || c.dec(v[2]).None? then None else MapSome(c.dec(v[3]), (r: T) => OrderAndReject(c.dec(v[2]).value, r))
    else if kind == "Fill" then
      if c.dec(v[2]).None? then None
      else if |v| == 4 then MapSome(c.dec(v[3]), (o: T) => FillAndOrder(c.dec(v[2]).value, Some(o)))
      else Some(FillAndOrder(c.dec(v[2]).value, None))
    else if kind == "FixSessionCMEState" then MapSome(c.dec(v[2]), (p: T) => SessionState(p))
    else if kind == "FixSessionCMEMsg" then
      MapSome(c.decMsg(v[2]), (p: (T, string)) => SessionMessage(p.0, ReplaceAll(p.1, COMMA_REPLACEMENT, COMMA)))
    else if kind == "FillDropCopy" then MapSome(c.dec(v[2]), (p: T) => DropCopyFill(p))
    else if kind == "PnLAuditTrailInfo" then MapSome(c.dec(v[2]), (p: T) => PnlAudit(p))
    else None
  }

  /** The item of a line, or None for a line with too few fields, a bad number, an unknown kind or a bad payload. */
  function FromLine<T>(c: Codec<T>, line: string): Option<Item<T>> {
    var v := Split(line);
    if |v| < 3 then None else
    match ParseDecimal(v[0])
    case None => None
    case Some(n) => if n >= TWO_32 then None else MapSome(BodyFrom(c, v[1], v), (b: Body<T>) => Item(n, b))
  }

  lemma {:induction false} KindClean(b: Body)
    ensures DELIM !in KindText(b)
  {
  }

  /** The delimiter is in a body's fields exactly if it is in the text of its session message. */
  predicate Delimited<T>(b: Body<T>) {
    b.SessionMessage? && DELIM in b.message
  }

  lemma {:induction false} FieldsClean<T>(c: Codec<T>, b: Body<T>)
    requires Faithful(c, b) && !Delimited(b)
    ensures forall i :: 0 <= i < |Fields(c, b)| ==> DELIM !in Fields(c, b)[i]
  {
    if b.SessionMessage? {
      assert DELIM !in Written(b.message);
    }
  }

  lemma {:induction false} FieldsSplit<T>(c: Codec<T>, it: Item<T>)
    requires Faithful(c, it.body) && !it.body.NoBody? && !Delimited(it.body)
    ensures Split(ToLine(c, it)) == [Decimal(it.id), KindText(it.body)] + Fields(c, it.body)
  {
    hide Fields, KindText, Split, Join, Faithful, Delimited;
    DecimalRoundTrip(it.id);
    KindClean(it.body);
    FieldsClean(c, it.body);
    SplitJoin([Decimal(it.id), KindText(it.body)] + Fields(c, it.body));
  }

  /** What reading back makes of an item's body: itself, but for replacement bytes in a session message. */
  function Reread<T>(b: Body<T>): Body<T> {
    match b
    case SessionMessage(h, m) => SessionMessage(h, ReplaceAll(Written(m), COMMA_REPLACEMENT, COMMA))
    case _ => b
  }

  lemma {:induction false} BodyRead<T>(c: Codec<T>, n: string, b: Body<T>)
    requires Faithful(c, b) && !b.NoBody?
    ensures var v := [n, KindText(b)] + Fields(c, b);
            |v| >= 3 && BodyFrom(c, KindText(b), v) == Some(Reread(b))
  {
    match b case Command(_) => case OrderOnly(_) => case OrderAndReject(_, _) => case FillAndOrder(_, o) => if o.None? {} else {}
    case SessionMessage(_, _) => case SessionState(_) => case DropCopyFill(_) => case PnlAudit(_) =>
  }

  /** An item without the delimiter in its message comes back with id, kind and payload, its commas restored. */
  lemma {:induction false} LineReread<T>(c: Codec<T>, it: Item<T>)
    requires Faithful(c, it.body) && !it.body.NoBody? && it.id < TWO_32 && !Delimited(it.body)
    ensures FromLine(c, ToLine(c, it)) == Some(Item(it.id, Reread(it.body)))
  {
    hide Fields, Split, Join, ToLine, BodyFrom, Faithful, Delimited, KindText, ParseDecimal, Decimal;
    FieldsSplit(c, it);
    DecimalRoundTrip(it.id);
    BodyRead(c, Decimal(it.id), it.body);
  }

  /** An id of more than 32 bits is written, but not read back. */
  lemma {:induction false} WideNotRead<T>(c: Codec<T>, it: Item<T>)
    requires Faithful(c, it.body) && !it.body.NoBody? && it.id >= TWO_32 && !Delimited(it.body)
    ensures FromLine(c, ToLine(c, it)) == None
  {
    hide Fields, Split, Join, ToLine, BodyFrom, Faithful, Delimited, KindText, ParseDecimal, Decimal;
    FieldsSplit(c, it);
    DecimalRoundTrip(it.id);
  }

  /** How lines are laid out: id, kind, then the payloads in order, each after a byte 3; commas of a session message as a byte 4. */
  lemma {:induction false} LineLayout<T>(c: Codec<T>, n: nat, p: T, q: T, m: string)
    ensures var d := [3 as char];
            && ToLine(c, Item(n, Command(p))) == Decimal(n) + d + "Command" + d + c.enc(p)
            && ToLine(c, Item(n, OrderOnly(p))) == Decimal(n) + d + "Order" + d + c.enc(p)
            && ToLine(c, Item(n, SessionState(p))) == Decimal(n) + d + "FixSessionCMEState" + d + c.enc(p)
            && ToLine(c, Item(n, DropCopyFill(p))) == Decimal(n) + d + "FillDropCopy" + d + c.enc(p)
            && ToLine(c, Item(n, PnlAudit(p))) == Decimal(n) + d + "PnLAuditTrailInfo" + d + c.enc(p)
            && ToLine(c, Item(n, OrderAndReject(p, q))) == Decimal(n) + d + "OrderAndRej" + d + c.enc(p) + d + c.enc(q)
            && ToLine(c, Item(n, FillAndOrder(p, None))) == Decimal(n) + d + "Fill" + d + c.enc(p)
            && ToLine(c, Item(n, FillAndOrder(p, Some(q)))) == Decimal(n) + d + "Fill" + d + c.enc(p) + d + c.enc(q)
            && ToLine(c, Item(n, SessionMessage(p, m)))
               == Decimal(n) + d + "FixSessionCMEMsg" + d + c.head(p) + ReplaceAll(m, ',', 4 as char) + c.tail(p)
  {
    hide Decimal, ReplaceAll;
    var id := Decimal(n);
    JoinThree(id, "Command", c.enc(p));
    JoinThree(id, "Order", c.enc(p));
    JoinThree(id, "FixSessionCMEState", c.enc(p));
    JoinThree(id, "FillDropCopy", c.enc(p));
    JoinThree(id, "PnLAuditTrailInfo", c.enc(p));
    JoinFour(id, "OrderAndRej", c.enc(p), c.enc(q));
    JoinThree(id, "Fill", c.enc(p));
    JoinFour(id, "Fill", c.enc(p), c.enc(q));
    JoinThree(id, "FixSessionCMEMsg", c.EncMsg(p, Written(m)));
    assert id + [3 as char] + "FixSessionCMEMsg" + [3 as char] + (c.head(p) + Written(m) + c.tail(p))
        == id + [3 as char] + "FixSessionCMEMsg" + [3 as char] + c.head(p) + Written(m) + c.tail(p);
  }

  lemma {:induction false} JoinThree(a: string, b: string, c: string)
    ensures Join([a, b] + [c]) == a + [DELIM] + b + [DELIM] + c
  {
    assert ([a, b] + [c])[1..] == [b, c] && [b, c][1..] == [c];
    assert Join([c]) == c && Join([b, c]) == b + [DELIM] + c;
    assert a + [DELIM] + (b + [DELIM] + c) == a + [DELIM] + b + [DELIM] + c;
  }

  lemma {:induction false} JoinFour(a: string, b: string, c: string, d: string)
    ensures Join([a, b] + [c, d]) == a + [DELIM] + b + [DELIM] + c + [DELIM] + d
  {
    assert ([a, b] + [c, d])[1..] == [b, c] + [d];
    JoinThree(b, c, d);
    assert a + [DELIM] + (b + [DELIM] + c + [DELIM] + d) == a + [DELIM] + b + [DELIM] + c + [DELIM] + d;
  }

  // ---------- a delimiter inside a session message ----------

  /** No field of a line has a delimiter in it. */
  lemma {:induction false} SplitClean(line: string)
    ensures forall i :: 0 <= i < |Split(line)| ==> DELIM !in Split(line)[i]
  {
    if line != "" {
      SplitClean(line[1..]);
      var rest := Split(line[1..]);
      assert rest == [rest[0]] + rest[1..];
    }
  }

  /** Whatever the line: a session message read from it has no delimiter in its text. */
  lemma {:induction false} ReadHasNoDelimiter<T(!new)>(c: Codec<T>, line: string)
    requires MakesUpNoDelimiter(c)
    ensures var r := FromLine(c, line);
            r.Some? && r.value.body.SessionMessage? ==> DELIM !in r.value.body.message
  {
    hide Split, ParseDecimal;
    SplitClean(line);
  }

  /** A session message with a delimiter in its text never comes back. */
  lemma {:induction false} DelimitedNotRestored<T(!new)>(c: Codec<T>, it: Item<T>)
    requires it.body.SessionMessage? && DELIM in it.body.message && MakesUpNoDelimiter(c)
    ensures FromLine(c, ToLine(c, it)) != Some(it)
  {
    hide FromLine, ToLine;
    ReadHasNoDelimiter(c, ToLine(c, it));
  }

  /**
    Every storable item comes back from its line unchanged, if and only if it is not a session message with a comma
    replacement byte or a field delimiter in its text, and its id fits in 32 bits.
   */
  lemma {:induction false} LineRoundTrip<T(!new)>(c: Codec<T>, it: Item<T>)
    requires Faithful(c, it.body) && MakesUpNoDelimiter(c) && !it.body.NoBody?
    ensures FromLine(c, ToLine(c, it)) == Some(it)
       <==> it.id < 0x1_0000_0000 && (it.body.SessionMessage? ==> COMMA_REPLACEMENT !in it.body.message && DELIM !in it.body.message)
  {
    hide FromLine, ToLine, Faithful, MakesUpNoDelimiter;
    if Delimited(it.body) {
      DelimitedNotRestored(c, it);
    } else if it.id >= TWO_32 {
      WideNotRead(c, it);
    } else {
      LineReread(c, it);
      if it.body.SessionMessage? {
        CommasRestored(it.body.message);
      }
    }
  }

  /** An item without a kind has a line that is never read as an item. */
  lemma {:induction false} UnknownNotRead<T>(c: Codec<T>, id: nat)
    ensures FromLine(c, ToLine(c, Item(id, NoBody))) == None
  {
  }
}
