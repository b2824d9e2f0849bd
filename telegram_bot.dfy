/** gen/servergrpc/server/telegram_bot.go: the HTML text of the new-order
    notification. The date layout (time.DateOnly) is a parameter. */
module TelegramBot {
  import opened Wrappers
  import opened GoTime
  import opened GoStrings
  import opened GoFmt
  import opened GoHtml
  import Orders = TransportOrders

  /** The parts of the message, in the order they are written. */
  datatype Section =
    | Header(id: nat)
    | From(place: string)
    | To(place: string)
    | Date(day: string)
    | Phone(number: string)
    | Email(address: string)
    | Description(info: string)

  function Rank(s: Section): nat {
    match s
    case Header(_) => 0
    case From(_) => 1
    case To(_) => 2
    case Date(_) => 3
    case Phone(_) => 4
    case Email(_) => 5
    case Description(_) => 6
  }

  /** The text of one part; user-supplied values are HTML-escaped. Every
      part but the description ends a line. */
  function Render(s: Section): (text: string)
    ensures !s.Description? ==> |text| > 0 && text[|text| - 1] == '\n'
  {
    match s
    case Header(id) => "<b>NEW ORDER</b> #" + Decimal(id) + "\n\n"
    case From(p) => "<b>From:</b> " + EscapeString(p) + "\n"
    case To(p) => "<b>To:</b> " + EscapeString(p) + "\n"
    case Date(d) => "<b>Date:</b> " + EscapeString(d) + "\n"
    case Phone(n) => "<b>Phone:</b> " + EscapeString(n) + "\n"
    case Email(a) => "<b>Email:</b> " + EscapeString(a) + "\n"
    case Description(i) => "\n<b>Description:</b>\n" + EscapeString(i)
  }

  /** The text of several parts, one after the other. */
  function Concat(ss: seq<Section>): string {
    if |ss| == 0 then "" else Concat(ss[..|ss| - 1]) + Render(ss[|ss| - 1])
  }

  /** A value that is present and not the empty string. */
  function NonEmpty(v: Option<string>): (r: Option<string>)
    ensures r.Some? <==> v.Some? && v.value != ""
    ensures r.Some? ==> r == v
  {
    if v.Some? && v.value != "" then v else None
  }

  /** One slot per part, in the order they are written; a blank slot is a
      part the message leaves out. */
  function Slots(o: Orders.Order, dateOnly: Time -> string): (slots: seq<Option<Section>>)
    ensures |slots| == 7
    ensures forall i :: 0 <= i < 7 && slots[i].Some? ==> Rank(slots[i].value) == i
  {
    [Some(Header(o.id)), Some(From(o.moveFrom)), Some(To(o.moveTo)),
     if IsZero(o.moveDate) then None else Some(Date(dateOnly(o.moveDate))),
     if o.phone == "" then None else Some(Phone(o.phone)),
     match NonEmpty(o.email) { case Some(e) => Some(Email(e)) case None => None },
     match NonEmpty(o.additionalInfo) { case Some(i) => Some(Description(i)) case None => None }]
  }

  /** The parts in the filled slots, in order. */
  function Present(slots: seq<Option<Section>>): seq<Section> {
    if |slots| == 0 then []
    else
      var last := slots[|slots| - 1];
      Present(slots[..|slots| - 1]) + (if last.Some? then [last.value] else [])
  }

  /** The parts of the message of an order. */
  function Sections(o: Orders.Order, dateOnly: Time -> string): (ss: seq<Section>)
    ensures |ss| >= 3 && ss[..3] == [Header(o.id), From(o.moveFrom), To(o.moveTo)]
  {
    var slots := Slots(o, dateOnly);
    OpeningSlots(slots);
    assert slots[..7] == slots;
    PresentPrefix(slots, 3, 7);
    Present(slots)
  }

  /** The message: every part, then one trailing newline removed. */
  function Message(o: Orders.Order, dateOnly: Time -> string): string {
    TrimSuffix(Concat(Sections(o, dateOnly)), "\n")
  }

  lemma OpeningSlots(slots: seq<Option<Section>>)
    requires |slots| >= 3 && slots[0].Some? && slots[1].Some? && slots[2].Some?
    ensures Present(slots[..3]) == [slots[0].value, slots[1].value, slots[2].value]
  {
    var s1, s2, s3 := slots[..1], slots[..2], slots[..3];
    assert s1[..0] == [] && s2[..1] == s1 && s3[..2] == s2;
    assert Present(s1) == [slots[0].value];
    assert Present(s2) == [slots[0].value, slots[1].value];
  }

  /** The parts of the first k slots begin the parts of the first m. */
  lemma {:induction false} PresentPrefix(slots: seq<Option<Section>>, k: nat, m: nat)
    requires k <= m <= |slots|
    ensures |Present(slots[..k])| <= |Present(slots[..m])|
    ensures Present(slots[..m])[..|Present(slots[..k])|] == Present(slots[..k])
    decreases m
  {
    if k < m {
      assert slots[..m][..m - 1] == slots[..m - 1];
      PresentPrefix(slots, k, m - 1);
    }
  }

  /** A part is in the message exactly when its slot holds it. */
  lemma {:induction false} PresentMembers(slots: seq<Option<Section>>, s: Section)
    ensures s in Present(slots) <==> Some(s) in slots
  {
    if |slots| > 0 {
      PresentMembers(slots[..|slots| - 1], s);
      assert slots == slots[..|slots| - 1] + [slots[|slots| - 1]];
    }
  }

  /** Which parts the message of an order has besides the header, From and
      To: Date when the move date is not the zero time; Phone when the
      phone is non-empty; Email and Description when present and
      non-empty. */
  lemma SectionsContent(o: Orders.Order, dateOnly: Time -> string, x: string)
    ensures Date(x) in Sections(o, dateOnly) <==> !IsZero(o.moveDate) && x == dateOnly(o.moveDate)
    ensures Phone(x) in Sections(o, dateOnly) <==> o.phone != "" && x == o.phone
    ensures Email(x) in Sections(o, dateOnly) <==> o.email == Some(x) && x != ""
    ensures Description(x) in Sections(o, dateOnly) <==> o.additionalInfo == Some(x) && x != ""
  {
    var slots := Slots(o, dateOnly);
    PresentMembers(slots, Date(x));
    PresentMembers(slots, Phone(x));
    PresentMembers(slots, Email(x));
    PresentMembers(slots, Description(x));
  }

  /** Parts strictly ordered by rank: a fixed order, each kind at most once. */
  predicate InOrder(ss: seq<Section>) {
    forall i, j :: 0 <= i < j < |ss| ==> Rank(ss[i]) < Rank(ss[j])
  }

  predicate SlotsInOrder(slots: seq<Option<Section>>) {
    forall i, j :: 0 <= i < j < |slots| && slots[i].Some? && slots[j].Some? ==>
      Rank(slots[i].value) < Rank(slots[j].value)
  }

  lemma {:induction false} PresentInOrder(slots: seq<Option<Section>>)
    requires SlotsInOrder(slots)
    ensures InOrder(Present(slots))
  {
    if |slots| > 0 {
      var init := slots[..|slots| - 1];
      var last := slots[|slots| - 1];
      assert SlotsInOrder(init) by {
        forall i, j | 0 <= i < j < |init| && init[i].Some? && init[j].Some?
          ensures Rank(init[i].value) < Rank(init[j].value)
        {
          assert init[i] == slots[i] && init[j] == slots[j];
        }
      }
      PresentInOrder(init);
      if last.Some? {
        var p := Present(init);
        forall k | 0 <= k < |p|
          ensures Rank(p[k]) < Rank(last.value)
        {
          PresentMembers(init, p[k]);
          var m :| 0 <= m < |init| && init[m] == Some(p[k]);
          assert slots[m] == init[m];
        }
      }
    }
  }

  /** The parts of every message come in the fixed order Header, From, To,
      Date, Phone, Email, Description. */
  lemma SectionsInOrder(o: Orders.Order, dateOnly: Time -> string)
    ensures InOrder(Sections(o, dateOnly))
  {
    PresentInOrder(Slots(o, dateOnly));
  }

  lemma {:induction false} ConcatAppend(ss: seq<Section>, extra: seq<Section>)
    requires |extra| <= 1
    ensures Concat(ss + extra) == Concat(ss) + (if |extra| == 1 then Render(extra[0]) else "")
  {
    if |extra| == 1 {
      assert (ss + extra)[..|ss|] == ss;
    } else {
      assert ss + extra == ss;
    }
  }

  /** Writing the part of slot k extends the text of the slots before it. */
  lemma WriteStep(slots: seq<Option<Section>>, k: nat)
    requires k < |slots|
    ensures Concat(Present(slots[..k + 1])) ==
      Concat(Present(slots[..k])) + (if slots[k].Some? then Render(slots[k].value) else "")
  {
    assert slots[..k + 1][..k] == slots[..k];
    ConcatAppend(Present(slots[..k]), if slots[k].Some? then [slots[k].value] else []);
  }

  /** Three consecutive WriteString calls on the builder. */
  method Write3(b: string, x: string, y: string, z: string) returns (r: string)
    ensures r == b + (x + y + z)
  {
    r := b + x;
    r := r + y;
    r := r + z;
  }

  /** Two consecutive WriteString calls on the builder. */
  method Write2(b: string, x: string, y: string) returns (r: string)
    ensures r == b + (x + y)
  {
    r := b + x;
    r := r + y;
  }

  /** The text slot k contributes: its part, or nothing. */
  function Piece(o: Orders.Order, dateOnly: Time -> string, k: nat): string
    requires k < 7
  {
    var slot := Slots(o, dateOnly)[k];
    if slot.Some? then Render(slot.value) else ""
  }

  /** The text of the first k slots. */
  function Written(o: Orders.Order, dateOnly: Time -> string, k: nat): string
    requires k <= 7
  {
    if k == 0 then "" else Written(o, dateOnly, k - 1) + Piece(o, dateOnly, k - 1)
  }

  lemma {:induction false} WrittenIsConcat(o: Orders.Order, dateOnly: Time -> string, k: nat)
    requires k <= 7
    ensures Written(o, dateOnly, k) == Concat(Present(Slots(o, dateOnly)[..k]))
  {
    if k > 0 {
      WrittenIsConcat(o, dateOnly, k - 1);
      WriteStep(Slots(o, dateOnly), k - 1);
    }
  }

  /** What each slot writes, in the source's own terms. */
  lemma PieceTexts(o: Orders.Order, dateOnly: Time -> string)
    ensures Piece(o, dateOnly, 0) == "<b>NEW ORDER</b> #" + Decimal(o.id) + "\n\n"
    ensures Piece(o, dateOnly, 1) == "<b>From:</b> " + EscapeString(o.moveFrom) + "\n"
    ensures Piece(o, dateOnly, 2) == "<b>To:</b> " + EscapeString(o.moveTo) + "\n"
    ensures !IsZero(o.moveDate) ==> Piece(o, dateOnly, 3) == "<b>Date:</b> " + EscapeString(dateOnly(o.moveDate)) + "\n"
    ensures IsZero(o.moveDate) ==> Piece(o, dateOnly, 3) == ""
    ensures o.phone != "" ==> Piece(o, dateOnly, 4) == "<b>Phone:</b> " + EscapeString(o.phone) + "\n"
    ensures o.phone == "" ==> Piece(o, dateOnly, 4) == ""
    ensures o.email.Some? && o.email.value != "" ==>
      Piece(o, dateOnly, 5) == "<b>Email:</b> " + EscapeString(o.email.value) + "\n"
    ensures !(o.email.Some? && o.email.value != "") ==> Piece(o, dateOnly, 5) == ""
    ensures o.additionalInfo.Some? && o.additionalInfo.value != "" ==>
      Piece(o, dateOnly, 6) == "\n<b>Description:</b>\n" + EscapeString(o.additionalInfo.value)
    ensures !(o.additionalInfo.Some? && o.additionalInfo.value != "") ==> Piece(o, dateOnly, 6) == ""
  {
  }

  /** The message is the text of the seven slots, one newline trimmed. */
  lemma MessageIsWritten(o: Orders.Order, dateOnly: Time -> string)
    ensures Message(o, dateOnly) == TrimSuffix(Written(o, dateOnly, 7), "\n")
  {
    WrittenIsConcat(o, dateOnly, 7);
    assert Slots(o, dateOnly)[..7] == Slots(o, dateOnly);
  }

  /** formatOrderMessage, writing to a builder part by part. */
  method FormatOrderMessage(o: Orders.Order, dateOnly: Time -> string) returns (text: string)
    ensures text == Message(o, dateOnly)
  {
    PieceTexts(o, dateOnly);
    var b := "";
    b := Write3(b, "<b>NEW ORDER</b> #", Decimal(o.id), "\n\n");
    assert b == Written(o, dateOnly, 1);
    b := Write3(b, "<b>From:</b> ", EscapeString(o.moveFrom), "\n");
    assert b == Written(o, dateOnly, 2);
    b := Write3(b, "<b>To:</b> ", EscapeString(o.moveTo), "\n");
    assert b == Written(o, dateOnly, 3);
    if !IsZero(o.moveDate) {
      b := Write3(b, "<b>Date:</b> ", EscapeString(dateOnly(o.moveDate)), "\n");
    }
    assert b == Written(o, dateOnly, 4);
    if o.phone != "" {
      b := Write3(b, "<b>Phone:</b> ", EscapeString(o.phone), "\n");
    }
    assert b == Written(o, dateOnly, 5);
    if o.email.Some? && o.email.value != "" {
      b := Write3(b, "<b>Email:</b> ", EscapeString(o.email.value), "\n");
    }
    assert b == Written(o, dateOnly, 6);
    if o.additionalInfo.Some? && o.additionalInfo.value != "" {
      b := Write2(b, "\n<b>Description:</b>\n", EscapeString(o.additionalInfo.value));
    }
    assert b == Written(o, dateOnly, 7);
    MessageIsWritten(o, dateOnly);
    text := TrimSuffix(b, "\n");
  }

  /** The text of the first k parts begins the text of all of them. */
  lemma {:induction false} ConcatPrefix(ss: seq<Section>, k: nat)
    requires k <= |ss|
    ensures |Concat(ss[..k])| <= |Concat(ss)| && Concat(ss)[..|Concat(ss[..k])|] == Concat(ss[..k])
    decreases |ss|
  {
    if k < |ss| {
      assert ss[..|ss| - 1][..k] == ss[..k];
      ConcatPrefix(ss[..|ss| - 1], k);
    } else {
      assert ss[..k] == ss;
    }
  }

  /** Removing a suffix leaves a prefix. */
  lemma TrimmedIsPrefix(s: string, suffix: string)
    ensures |TrimSuffix(s, suffix)| <= |s| && s[..|TrimSuffix(s, suffix)|] == TrimSuffix(s, suffix)
  {
  }

  lemma ThreeParts(a: Section, b: Section, c: Section)
    ensures Concat([a, b, c]) == Render(a) + Render(b) + Render(c)
  {
    assert [a, b, c][..2] == [a, b];
    assert [a, b][..1] == [a];
    assert [a][..0] == [];
    assert Concat([a]) == Render(a);
    assert Concat([a, b]) == Render(a) + Render(b);
  }

  lemma AppendAssoc(x: string, y: string, z: string)
    ensures x + (y + z) == (x + y) + z
  {
  }

  lemma PrefixOfPrefix(c: string, p: string, q: string)
    requires |q| <= |c| && c[..|q|] == q && |p| < |q| && q[..|p|] == p
    ensures |p| < |c| && c[..|p|] == p
  {
    assert c[..|p|] == c[..|q|][..|p|];
  }

  /** A prefix shorter than the text survives trimming one newline. */
  lemma PrefixSurvivesTrim(c: string, p: string)
    requires |p| < |c| && c[..|p|] == p
    ensures HasPrefix(TrimSuffix(c, "\n"), p)
  {
    var m := TrimSuffix(c, "\n");
    assert |m| >= |c| - 1;
    assert m[..|p|] == c[..|p|];
  }

  /** The message opens with the header, the From line and the To line
      (whose newline may be the one trimmed off). */
  lemma MessageOpening(o: Orders.Order, dateOnly: Time -> string)
    ensures HasPrefix(Message(o, dateOnly),
      Render(Header(o.id)) + Render(From(o.moveFrom)) + ("<b>To:</b> " + EscapeString(o.moveTo)))
  {
    var ss := Sections(o, dateOnly);
    var x := Render(Header(o.id)) + Render(From(o.moveFrom));
    var to := "<b>To:</b> " + EscapeString(o.moveTo);
    ConcatPrefix(ss, 3);
    ThreeParts(Header(o.id), From(o.moveFrom), To(o.moveTo));
    assert Render(To(o.moveTo)) == to + "\n";
    AppendAssoc(x, to, "\n");
    assert ((x + to) + "\n")[..|x + to|] == x + to;
    var c := Concat(ss);
    var three := Concat(ss[..3]);
    assert three == (x + to) + "\n";
    PrefixOfPrefix(c, x + to, three);
    PrefixSurvivesTrim(c, x + to);
  }

  /** The slots before the description always end a line. */
  lemma {:induction false} EndsLine(slots: seq<Option<Section>>, k: nat)
    requires 1 <= k <= |slots| && slots[0].Some? && !slots[0].value.Description?
    requires forall i :: 0 <= i < k && slots[i].Some? ==> !slots[i].value.Description?
    ensures var c := Concat(Present(slots[..k])); |c| > 0 && c[|c| - 1] == '\n'
  {
    WriteStep(slots, k - 1);
    if k > 1 && slots[k - 1].None? {
      EndsLine(slots, k - 1);
    } else if k == 1 {
      assert slots[..0] == [];
    }
  }

  /** Seven slots in rank order whose last is blank end a line. */
  lemma {:induction false} NoDescriptionEndsLine(slots: seq<Option<Section>>)
    requires |slots| == 7 && slots[0].Some? && slots[6].None?
    requires forall i :: 0 <= i < 7 && slots[i].Some? ==> Rank(slots[i].value) == i
    ensures var c := Concat(Present(slots)); |c| > 0 && c[|c| - 1] == '\n'
  {
    EndsLine(slots, 6);
    WriteStep(slots, 6);
    assert slots[..7] == slots;
  }

  /** Removing the newline that ends a text. */
  lemma TrimNewline(c: string)
    requires |c| > 0 && c[|c| - 1] == '\n'
    ensures TrimSuffix(c, "\n") + "\n" == c
  {
    assert c[|c| - 1..] == "\n";
  }

  /** At most one newline is removed; without a description the parts end
      a line, so exactly one is. */
  lemma TrailingNewline(o: Orders.Order, dateOnly: Time -> string)
    ensures Message(o, dateOnly) == Concat(Sections(o, dateOnly))
      || Message(o, dateOnly) + "\n" == Concat(Sections(o, dateOnly))
    ensures !(o.additionalInfo.Some? && o.additionalInfo.value != "") ==>
      Message(o, dateOnly) + "\n" == Concat(Sections(o, dateOnly))
  {
    if !(o.additionalInfo.Some? && o.additionalInfo.value != "") {
      var slots := Slots(o, dateOnly);
      assert slots[6].None?;
      NoDescriptionEndsLine(slots);
      TrimNewline(Concat(Present(slots)));
    }
  }
}
