/** The kitchen order ticket: the text written for the kitchen when lines
    are sent, the name of the file it goes to, and the result reported
    back to the order screen. The file-system write is a parameter. */
module KitchenTicket {
  import opened Collections
  import opened Catalog

  datatype KotResult = KotResult(success: bool, message: string)

  /** The file that would be written: its name and its text. */
  datatype KotFile = KotFile(fileName: string, content: string)

  const EmptyOrder: KotResult := KotResult(false, "Order is empty.")
  const Saved: KotResult := KotResult(true, "KOT saved successfully.")
  const SaveFailed: KotResult := KotResult(false, "Failed to save KOT file.")

  // ---------------------------------------------------------------------
  // Numbers as text

  predicate IsDigit(c: char)
  {
    '0' <= c <= '9'
  }

  function DigitChar(d: nat): (c: char)
    requires d < 10
    ensures IsDigit(c) && DigitValue(c) == d
  {
    ('0' as int + d) as char
  }

  /** The decimal digits of `n`, most significant first, with no leading zero. */
  function NatToString(n: nat): (r: string)
    ensures |r| >= 1
    ensures forall i :: 0 <= i < |r| ==> IsDigit(r[i])
    ensures |r| > 1 ==> r[0] != '0'
  {
    if n < 10 then [DigitChar(n)] else NatToString(n / 10) + [DigitChar(n % 10)]
  }

  /** The number a string of decimal digits denotes. */
  function DigitValue(c: char): nat
    requires IsDigit(c)
  {
    c as int - '0' as int
  }

  function DigitsValue(s: string): nat
    requires forall i :: 0 <= i < |s| ==> IsDigit(s[i])
  {
    if s == [] then 0 else DigitsValue(s[..|s| - 1]) * 10 + DigitValue(s[|s| - 1])
  }

  lemma {:induction false} NatToStringRoundTrip(n: nat)
    ensures DigitsValue(NatToString(n)) == n
  {
    if n >= 10 {
      var r := NatToString(n);
      assert r[..|r| - 1] == NatToString(n / 10);
      NatToStringRoundTrip(n / 10);
    }
  }

  /** `quantity.toString()` for a whole number: a minus sign for a negative one. */
  function IntToString(q: int): (r: string)
    ensures |r| >= 1
    ensures r[0] == '-' <==> q < 0
    ensures forall i :: 0 < i < |r| ==> IsDigit(r[i])
    ensures q >= 0 ==> IsDigit(r[0])
  {
    if q < 0 then "-" + NatToString(-q) else NatToString(q)
  }

  /** Different quantities print differently. */
  lemma IntToStringInjective(a: int, b: int)
    requires IntToString(a) == IntToString(b)
    ensures a == b
  {
    if a < 0 {
      assert IntToString(a)[1..] == NatToString(-a);
      assert IntToString(b)[1..] == NatToString(-b);
      NatToStringRoundTrip(-a);
      NatToStringRoundTrip(-b);
    } else {
      NatToStringRoundTrip(a);
      NatToStringRoundTrip(b);
    }
  }

  /** `padEnd`: spaces appended up to `width`; a longer string is kept whole. */
  function PadEnd(s: string, width: nat): (r: string)
    ensures |r| == if |s| >= width then |s| else width
    ensures r[..|s|] == s
    ensures forall i :: |s| <= i < |r| ==> r[i] == ' '
  {
    if |s| >= width then s else s + seq(width - |s|, _ => ' ')
  }

  // ---------------------------------------------------------------------
  // The file name

  /** The ISO timestamp with every `:` and `.` replaced by `-`. */
  function SanitizeTimestamp(ts: string): (r: string)
    ensures |r| == |ts|
    ensures forall i :: 0 <= i < |r| ==> r[i] != ':' && r[i] != '.'
    ensures forall i :: 0 <= i < |r| && ts[i] != ':' && ts[i] != '.' ==> r[i] == ts[i]
    ensures forall i :: 0 <= i < |r| && (ts[i] == ':' || ts[i] == '.') ==> r[i] == '-'
  {
    seq(|ts|, i requires 0 <= i < |ts| => if ts[i] == ':' || ts[i] == '.' then '-' else ts[i])
  }

  lemma SanitizeIdempotent(ts: string)
    ensures SanitizeTimestamp(SanitizeTimestamp(ts)) == SanitizeTimestamp(ts)
  {
  }

  const FilePrefix: string := "kot-table-"
  const FileSuffix: string := ".txt"

  function FileName(tableId: string, isoTimestamp: string): (r: string)
    ensures |r| == |FilePrefix| + |tableId| + 1 + |isoTimestamp| + |FileSuffix|
    ensures r[..|FilePrefix|] == FilePrefix
    ensures r[|r| - |FileSuffix|..] == FileSuffix
  {
    FilePrefix + tableId + "-" + SanitizeTimestamp(isoTimestamp) + FileSuffix
  }

  /** For one table, the file name gives back the sanitised timestamp. */
  lemma FileNameDeterminesTimestamp(tableId: string, a: string, b: string)
    requires FileName(tableId, a) == FileName(tableId, b)
    ensures SanitizeTimestamp(a) == SanitizeTimestamp(b)
  {
    var start := |FilePrefix| + |tableId| + 1;
    var na := FileName(tableId, a);
    var nb := FileName(tableId, b);
    assert na[start..start + |a|] == SanitizeTimestamp(a);
    assert nb[start..start + |b|] == SanitizeTimestamp(b);
  }

  // ---------------------------------------------------------------------
  // The ticket text

  const Rule: string := "================================\n"
  const Dashes: string := "--------------------------------\n"
  const Title: string := "      KITCHEN ORDER TICKET\n"
  const ColumnHeads: string := "Qty | Item\n"

  /** Everything above the item lines: banner, table, date, column heads. */
  function Header(tableId: string, date: string): (r: string)
    ensures |r| >= |Rule + Title| + |Dashes|
    ensures r[..|Rule + Title|] == Rule + Title
    ensures r[|r| - |Dashes|..] == Dashes
  {
    Rule + Title + (Rule + "\n") + ("Table: " + tableId + "\n") + ("Date: " + date + "\n\n") + Dashes + ColumnHeads + Dashes
  }

  /** One item line: a space, the quantity padded to three characters, a bar and the name. */
  function TicketLine(x: OrderItem): (r: string)
    ensures var q := IntToString(x.quantity);
      && |r| == 1 + |PadEnd(q, 3)| + 3 + |x.item.name| + 1
      && r[0] == ' '
      && r[1..1 + |q|] == q
      && r[1 + |PadEnd(q, 3)|..1 + |PadEnd(q, 3)| + 3] == " | "
      && r[|r| - 1 - |x.item.name|..|r| - 1] == x.item.name
      && r[|r| - 1] == '\n'
  {
    " " + PadEnd(IntToString(x.quantity), 3) + " | " + x.item.name + "\n"
  }

  /** The item lines in input order; each is at least eight characters
      long and ends in a line break. */
  function TicketLines(items: seq<OrderItem>): (r: string)
    ensures r == [] <==> items == []
    ensures |r| >= 8 * |items|
    ensures items != [] ==> r[|r| - 1] == '\n'
  {
    if items == [] then "" else TicketLines(items[..|items| - 1]) + TicketLine(items[|items| - 1])
  }

  /** The whole ticket: the header, the item lines, and a closing rule. */
  function TicketContent(tableId: string, date: string, items: seq<OrderItem>): (r: string)
    ensures |r| == |Header(tableId, date)| + |TicketLines(items)| + |Dashes|
    ensures r[..|Header(tableId, date)|] == Header(tableId, date)
    ensures r[|Header(tableId, date)|..|r| - |Dashes|] == TicketLines(items)
  {
    Header(tableId, date) + TicketLines(items) + Dashes
  }

  lemma PrefixExtends(a: string, b: string, c: string)
    requires a <= b
    ensures a <= b + c
  {
    assert (b + c)[..|a|] == b[..|a|];
  }

  lemma SuffixOfAppend(a: string, b: string)
    ensures (a + b)[|a|..] == b
  {
  }

  /** The ticket opens with the banner title and closes with the rule under the items. */
  lemma TicketFrame(tableId: string, date: string, items: seq<OrderItem>)
    ensures var r := TicketContent(tableId, date, items);
      && |r| >= |Rule + Title| + |Dashes|
      && r[..|Rule + Title|] == Rule + Title
      && r[|r| - |Dashes|..] == Dashes
      && var k := |Rule + Title| + |Rule| + 1;
         |r| >= k + 8 + |tableId| && r[k..k + 8 + |tableId|] == "Table: " + tableId + "\n"
  {
    var head := Rule + Title;
    var h1 := head + (Rule + "\n");
    var h2 := h1 + ("Table: " + tableId + "\n");
    var h3 := h2 + ("Date: " + date + "\n\n");
    var h4 := h3 + Dashes;
    var h5 := h4 + ColumnHeads;
    var h6 := h5 + Dashes;
    var front := h6 + TicketLines(items);
    assert h6 == Header(tableId, date);
    assert head <= head;
    PrefixExtends(head, head, Rule + "\n");
    PrefixExtends(head, h1, "Table: " + tableId + "\n");
    PrefixExtends(head, h2, "Date: " + date + "\n\n");
    PrefixExtends(head, h3, Dashes);
    PrefixExtends(head, h4, ColumnHeads);
    PrefixExtends(head, h5, Dashes);
    PrefixExtends(head, h6, TicketLines(items));
    PrefixExtends(head, front, Dashes);
    SuffixOfAppend(front, Dashes);
    var r := front + Dashes;
    assert h2 <= h2;
    PrefixExtends(h2, h2, "Date: " + date + "\n\n");
    PrefixExtends(h2, h3, Dashes);
    PrefixExtends(h2, h4, ColumnHeads);
    PrefixExtends(h2, h5, Dashes);
    PrefixExtends(h2, h6, TicketLines(items));
    PrefixExtends(h2, front, Dashes);
    SuffixOfAppend(h1, "Table: " + tableId + "\n");
    assert r[|h1|..|h2|] == h2[|h1|..];
  }

  lemma {:induction false} TicketLinesAppend(a: seq<OrderItem>, b: seq<OrderItem>)
    ensures TicketLines(a + b) == TicketLines(a) + TicketLines(b)
  {
    if b != [] {
      var init, last := b[..|b| - 1], b[|b| - 1];
      assert (a + b)[..|a + b| - 1] == a + init;
      assert (a + b)[|a + b| - 1] == last;
      TicketLinesAppend(a, init);
      calc {
        TicketLines(a + b);
        TicketLines(a + init) + TicketLine(last);
        TicketLines(a) + TicketLines(init) + TicketLine(last);
        { AppendAssociative(TicketLines(a), TicketLines(init), TicketLine(last)); }
        TicketLines(a) + (TicketLines(init) + TicketLine(last));
        TicketLines(a) + TicketLines(b);
      }
    } else {
      assert a + b == a;
    }
  }

  function CountChar(s: string, c: char): nat
  {
    if s == [] then 0 else (if s[0] == c then 1 else 0) + CountChar(s[1..], c)
  }

  lemma {:induction false} CountCharAppend(a: string, b: string, c: char)
    ensures CountChar(a + b, c) == CountChar(a, c) + CountChar(b, c)
  {
    if a != [] {
      assert (a + b)[1..] == a[1..] + b;
      CountCharAppend(a[1..], b, c);
    } else {
      assert a + b == b;
    }
  }

  lemma {:induction false} CountCharAbsent(s: string, c: char)
    requires forall i :: 0 <= i < |s| ==> s[i] != c
    ensures CountChar(s, c) == 0
  {
    if s != [] {
      CountCharAbsent(s[1..], c);
    }
  }

  /** An item line is exactly one line of text when the name has no line break. */
  lemma TicketLineIsOneLine(x: OrderItem)
    requires forall i :: 0 <= i < |x.item.name| ==> x.item.name[i] != '\n'
    ensures CountChar(TicketLine(x), '\n') == 1
  {
    var p := PadEnd(IntToString(x.quantity), 3);
    var head := " " + p + " | " + x.item.name;
    assert TicketLine(x) == head + "\n";
    assert forall i :: 0 <= i < |p| ==> p[i] != '\n' by {
      var q := IntToString(x.quantity);
      forall i | 0 <= i < |p| ensures p[i] != '\n' {
        if i < |q| { assert p[i] == q[i]; }
      }
    }
    assert forall i :: 0 <= i < |head| ==> head[i] != '\n' by {
      forall i | 0 <= i < |head| ensures head[i] != '\n' {
        if 1 <= i < 1 + |p| {
          assert head[i] == p[i - 1];
        } else if 1 + |p| + 3 <= i {
          assert head[i] == x.item.name[i - 1 - |p| - 3];
        }
      }
    }
    CountCharAbsent(head, '\n');
    CountCharAppend(head, "\n", '\n');
  }

  /** One line of text per item, for names without line breaks. */
  lemma {:induction false} TicketLinesCount(items: seq<OrderItem>)
    requires forall k :: 0 <= k < |items| ==> forall i :: 0 <= i < |items[k].item.name| ==> items[k].item.name[i] != '\n'
    ensures CountChar(TicketLines(items), '\n') == |items|
  {
    if items != [] {
      var init := items[..|items| - 1];
      TicketLinesCount(init);
      TicketLineIsOneLine(items[|items| - 1]);
      CountCharAppend(TicketLines(init), TicketLine(items[|items| - 1]), '\n');
    }
  }

  // ---------------------------------------------------------------------
  // Saving the ticket

  lemma AppendAssociative(a: string, b: string, c: string)
    ensures a + b + c == a + (b + c)
  {
  }

  /** `saveKotToFile`: an empty list is refused before anything is built;
      otherwise the name and the text are built, header first, one line
      per item in input order, closing rule last, and the outcome of the
      write decides the result. `isoTimestamp` and `localDate` stand for
      the clock read in its two formats. */
  method SaveKotToFile(tableId: string, items: seq<OrderItem>, isoTimestamp: string, localDate: string,
                       writeSucceeds: bool)
    returns (result: KotResult, file: Option<KotFile>)
    ensures |items| == 0 ==> result == EmptyOrder && file == None
    ensures |items| > 0 && writeSucceeds ==>
      result == Saved && file == Some(KotFile(FileName(tableId, isoTimestamp), TicketContent(tableId, localDate, items)))
    ensures |items| > 0 && !writeSucceeds ==> result == SaveFailed && file == None
    ensures result.success <==> file.Some?
  {
    if |items| == 0 {
      return EmptyOrder, None;
    }
    var timestamp := SanitizeTimestamp(isoTimestamp);
    var fileName := FilePrefix + tableId + "-" + timestamp + FileSuffix;

    var content := Rule;
    content := content + Title;
    content := content + (Rule + "\n");
    content := content + ("Table: " + tableId + "\n");
    content := content + ("Date: " + localDate + "\n\n");
    content := content + Dashes;
    content := content + ColumnHeads;
    content := content + Dashes;
    assert content == Header(tableId, localDate);
    assert TicketLines(items[..0]) == [];

    for i := 0 to |items|
      invariant content == Header(tableId, localDate) + TicketLines(items[..i])
    {
      var qty := PadEnd(IntToString(items[i].quantity), 3);
      var line := " " + qty + " | " + items[i].item.name + "\n";
      assert TicketLines(items[..i + 1]) == TicketLines(items[..i]) + line by {
        assert items[..i + 1][..i] == items[..i];
      }
      AppendAssociative(Header(tableId, localDate), TicketLines(items[..i]), line);
      content := content + line;
    }
    assert items[..|items|] == items;

    content := content + Dashes;

    if writeSucceeds {
      result, file := Saved, Some(KotFile(fileName, content));
    } else {
      result, file := SaveFailed, None;
    }
  }
}
