/**
 * The newsletter admin page (app/dashboard/admin/newsletter/page.tsx): the
 * subscriber list, its CSV export and delete-by-id. The export quotes the
 * e-mail column and doubles the quotes inside it, as section 2, rule 7 of
 * RFC 4180 asks, but separates records with a bare line feed rather than
 * the CRLF of section 2, rule 1.
 */
module Newsletter {
  import opened Strings
  import opened Lists
  import opened Session

  /** `new Date(createdAt).toISOString()`: its text, or the RangeError of an invalid date. */
  datatype Stamp = Iso(text: string) | InvalidDate

  datatype Subscriber = Subscriber(id: string, email: string, createdAt: Stamp)

  /** `replace(/"/g, '""')` */
  function EscapeQuotes(s: string): (r: string)
    ensures |r| == |s| + CountChar(s, '"')
    ensures forall c :: c in r ==> c in s
  {
    if s == [] then []
    else (if s[0] == '"' then "\"\"" else [s[0]]) + EscapeQuotes(s[1..])
  }

  /** Reading a quoted field back: every doubled quote stands for one quote. */
  function UnescapeQuotes(s: string): string {
    if |s| >= 2 && s[0] == '"' && s[1] == '"' then "\"" + UnescapeQuotes(s[2..])
    else if s == [] then []
    else [s[0]] + UnescapeQuotes(s[1..])
  }

  /** Doubling the quotes loses nothing: reading the field back gives the e-mail. */
  lemma {:induction false} UnescapeEscape(s: string)
    ensures UnescapeQuotes(EscapeQuotes(s)) == s
  {
    if s != [] {
      UnescapeEscape(s[1..]);
      var e := EscapeQuotes(s);
      if s[0] == '"' {
        assert e[2..] == EscapeQuotes(s[1..]);
      } else {
        assert e[1..] == EscapeQuotes(s[1..]);
        assert [s[0]] + s[1..] == s;
      }
    }
  }

  /** Every quote of the e-mail appears twice in its field. */
  lemma {:induction false} EscapedQuotesDoubled(s: string)
    ensures CountChar(EscapeQuotes(s), '"') == 2 * CountChar(s, '"')
  {
    if s != [] {
      EscapedQuotesDoubled(s[1..]);
      var head := if s[0] == '"' then "\"\"" else [s[0]];
      CountCharAppend(head, EscapeQuotes(s[1..]), '"');
    }
  }

  /** One record: `id,"E",ts` with E the escaped e-mail. */
  function Row(sub: Subscriber): string
    requires sub.createdAt.Iso?
  {
    sub.id + ",\"" + EscapeQuotes(sub.email) + "\"," + sub.createdAt.text
  }

  predicate AllDated(subs: seq<Subscriber>) {
    forall i :: 0 <= i < |subs| ==> subs[i].createdAt.Iso?
  }

  function Rows(subs: seq<Subscriber>): (rows: seq<string>)
    requires AllDated(subs)
    ensures |rows| == |subs| && forall i :: 0 <= i < |subs| ==> rows[i] == Row(subs[i])
  {
    seq(|subs|, i requires 0 <= i < |subs| => Row(subs[i]))
  }

  const Header := "id,email,createdAt\n"

  /** What the Export button produces. */
  datatype Export =
    | NothingToExport   // alert "No subscribers to export"
    | Aborted           // an invalid date makes `toISOString` throw
    | Csv(text: string)

  /** `exportCSV`: the header line, then one record per subscriber in order, joined by a line feed. */
  function ExportCsv(subs: seq<Subscriber>): (e: Export)
    ensures e == NothingToExport <==> subs == []
    ensures e == Aborted <==> subs != [] && !AllDated(subs)
    ensures e.Csv? ==> AllDated(subs) && e.text == Header + Join(Rows(subs), "\n")
  {
    if subs == [] then NothingToExport
    else if !AllDated(subs) then Aborted
    else Csv(Header + Join(Rows(subs), "\n"))
  }

  /** No field holds a line feed. */
  predicate SingleLine(sub: Subscriber) {
    '\n' !in sub.id && '\n' !in sub.email && (sub.createdAt.Iso? ==> '\n' !in sub.createdAt.text)
  }

  /** `t` is a suffix of `s`. */
  predicate EndsWith(s: string, t: string) {
    |t| <= |s| && s[|s| - |t|..] == t
  }

  /** Joins end with their last part. */
  lemma {:induction false} JoinEndsWithLast(parts: seq<string>, sep: string)
    requires |parts| > 0
    ensures EndsWith(Join(parts, sep), parts[|parts| - 1])
  {
    if |parts| > 1 {
      JoinEndsWithLast(parts[1..], sep);
      var rest := Join(parts[1..], sep);
      var last := parts[|parts| - 1];
      var whole := parts[0] + sep + rest;
      assert whole[|whole| - |last|..] == rest[|rest| - |last|..];
    }
  }

  /** A record of single-line fields is a single line. */
  lemma RowSingleLine(sub: Subscriber)
    requires sub.createdAt.Iso? && SingleLine(sub)
    ensures '\n' !in Row(sub)
  {
  }

  lemma HeaderOneLine()
    ensures CountChar(Header, '\n') == 1
  {
    assert Header == "id,email,createdAt" + "\n";
    CountCharAbsent("id,email,createdAt", '\n');
    CountCharAppend("id,email,createdAt", "\n", '\n');
  }

  /** A one-line header followed by single-line records joined by line feeds. */
  lemma {:induction false} JoinedLines(header: string, rows: seq<string>)
    requires CountChar(header, '\n') == 1
    requires |rows| > 0
    requires forall i :: 0 <= i < |rows| ==> '\n' !in rows[i]
    ensures CountChar(header + Join(rows, "\n"), '\n') == |rows|
    ensures EndsWith(header + Join(rows, "\n"), rows[|rows| - 1])
  {
    var body := Join(rows, "\n");
    JoinCount(rows, '\n');
    CountCharAppend(header, body, '\n');
    JoinEndsWithLast(rows, "\n");
    var last := rows[|rows| - 1];
    var text := header + body;
    assert text[|text| - |last|..] == body[|body| - |last|..];
  }

  /**
   * With no line feed inside the fields, the CSV holds one line feed per
   * subscriber (the header's and one between records), so it has one line
   * more than there are subscribers, and it ends with the last record.
   */
  lemma CsvLines(subs: seq<Subscriber>)
    requires ExportCsv(subs).Csv?
    requires forall i :: 0 <= i < |subs| ==> SingleLine(subs[i])
    ensures CountChar(ExportCsv(subs).text, '\n') == |subs|
    ensures EndsWith(ExportCsv(subs).text, Row(subs[|subs| - 1]))
  {
    var rows := Rows(subs);
    forall i | 0 <= i < |rows| ensures '\n' !in rows[i] {
      RowSingleLine(subs[i]);
    }
    HeaderOneLine();
    JoinedLines(Header, rows);
  }

  /** `prev.filter((s) => s.id !== id)`: exactly the entries with that id go, the rest keep their order. */
  function RemoveById(subs: seq<Subscriber>, id: string): (r: seq<Subscriber>)
    ensures IsSubseq(r, subs)
    ensures forall s :: s in r <==> s in subs && s.id != id
    ensures |r| == CountIf(subs, (s: Subscriber) => s.id != id)
    ensures (forall i :: 0 <= i < |subs| ==> subs[i].id != id) ==> r == subs
  {
    var keep := (s: Subscriber) => s.id != id;
    FilterIsSubseq(subs, keep);
    FilterLength(subs, keep);
    if forall i :: 0 <= i < |subs| ==> subs[i].id != id then
      FilterAllPass(subs, keep);
      Filter(subs, keep)
    else
      Filter(subs, keep)
  }

  /** What `getSubscribers()` can end with. */
  datatype SubscribersReply = SubscribersFailed | SubscribersReceived(subs: seq<Subscriber>)

  /** The page's state. */
  class NewsletterPage {
    var subs: seq<Subscriber>
    var loading: bool
    var error: string
    var deletingId: Option<string>

    constructor ()
      ensures subs == [] && loading && error == "" && deletingId == None
    {
      subs := [];
      loading := true;
      error := "";
      deletingId := None;
    }

    /** The mount effect: without a stored token the page says "Unauthorized" and loads nothing. */
    method Mount(ls: LocalStorage) returns (fetching: bool)
      modifies this
      ensures fetching <==> HasItem(ls.items, "token")
      ensures !fetching ==> error == "Unauthorized" && !loading
      ensures fetching ==> error == old(error) && loading
      ensures subs == old(subs) && deletingId == old(deletingId)
    {
      if !HasItem(ls.items, "token") {
        error := "Unauthorized";
        loading := false;
        return false;
      }
      loading := true;
      fetching := true;
    }

    /** The end of `load`: the reply replaces the list; a failure keeps it and sets the error. */
    method FinishLoad(reply: SubscribersReply)
      modifies this
      ensures reply.SubscribersReceived? ==> subs == reply.subs && error == old(error)
      ensures reply.SubscribersFailed? ==> subs == old(subs) && error == "Failed to load subscribers"
      ensures !loading && deletingId == old(deletingId)
    {
      match reply {
        case SubscribersFailed =>
          error := "Failed to load subscribers";
        case SubscribersReceived(list) =>
          subs := list;
      }
      loading := false;
    }

    /** `handleDelete(id)` starts: declining the confirm changes nothing; otherwise the row is marked. */
    method BeginDelete(id: string, confirmed: bool) returns (sent: bool)
      modifies this
      ensures sent == confirmed
      ensures deletingId == (if confirmed then Some(id) else old(deletingId))
      ensures subs == old(subs) && loading == old(loading) && error == old(error)
    {
      if !confirmed {
        return false;
      }
      deletingId := Some(id);
      sent := true;
    }

    /** The rest of `handleDelete`: a deletion removes the id from the list, a failure alerts. */
    method FinishDelete(id: string, deleted: bool) returns (alert: Option<string>)
      modifies this
      ensures deleted ==> subs == RemoveById(old(subs), id) && alert == None
      ensures !deleted ==> subs == old(subs) && alert == Some("Failed to delete")
      ensures deletingId == None && loading == old(loading) && error == old(error)
    {
      if deleted {
        subs := RemoveById(subs, id);
        alert := None;
      } else {
        alert := Some("Failed to delete");
      }
      deletingId := None;
    }
  }
}
