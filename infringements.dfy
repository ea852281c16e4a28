/**
 * The customer EULA licence infringement report of els_cli.go: the page
 * records the listing endpoint returns, the 10-field CSV record made of each
 * infringement, the page URL with its cursor, and what one export run makes
 * of the pages it fetched.
 */
module Infringements {
  import opened Wrappers
  import opened Errors
  import opened Decimal
  import opened RequestRetry
  import opened Reports

  const StatusOK: int := 200

  /** The CSV header row. */
  const Header: seq<string> := [
    "elsCustomerID", "vendorCustomerID", "eulaPeriod", "year", "month",
    "eulaPolicyID", "featureID", "licenseSetID", "licenseIndex", "numUsers"]

  /** The record of one infringement of one customer: integers in decimal, no vendor ID. */
  function Record(c: CustomerInfringements, i: Infringement): (r: seq<string>)
    ensures |r| == |Header|
  {
    [c.elsCustomerID, c.vendorCustomerID, i.eulaPeriod, Itoa(i.year), Itoa(i.month),
     i.eulaPolicyID, i.featureID, i.licenseSetID, Itoa(i.licenseIndex), Itoa(i.numUsers)]
  }

  /** What a record tells a reader of the report. */
  datatype Row = Row(elsCustomerID: string, vendorCustomerID: string, infringement: Infringement)

  /** Reads a record back; the vendor ID, which the report omits, reads as "". */
  function ParseRecord(r: seq<string>): Option<Row>
  {
    if |r| != |Header| then None
    else match (ParseInt(r[3]), ParseInt(r[4]), ParseInt(r[8]), ParseInt(r[9]))
      case (Some(year), Some(month), Some(index), Some(users)) =>
        Some(Row(r[0], r[1], Infringement(r[2], year, month, r[5], "", r[6], r[7], index, users)))
      case _ => None
  }

  /** A record carries every field of the infringement except its vendor ID. */
  lemma RecordRoundTrip(c: CustomerInfringements, i: Infringement)
    ensures ParseRecord(Record(c, i)) == Some(Row(c.elsCustomerID, c.vendorCustomerID, i.(vendorID := "")))
  {
    ItoaRoundTrip(i.year);
    ItoaRoundTrip(i.month);
    ItoaRoundTrip(i.licenseIndex);
    ItoaRoundTrip(i.numUsers);
  }

  /** The records of one customer, in infringement order. */
  function CustomerRecords(c: CustomerInfringements): (rs: seq<seq<string>>)
    ensures |rs| == |c.infringements|
    ensures forall k :: 0 <= k < |rs| ==> rs[k] == Record(c, c.infringements[k])
  {
    seq(|c.infringements|, k requires 0 <= k < |c.infringements| => Record(c, c.infringements[k]))
  }

  /** The records of a sequence of customers, in customer order: one per infringement. */
  function CustomersRecords(cs: seq<CustomerInfringements>): (rs: seq<seq<string>>)
    ensures |rs| == CustomersCount(cs)
  {
    if cs == [] then [] else CustomersRecords(cs[..|cs| - 1]) + CustomerRecords(cs[|cs| - 1])
  }

  function PageRecords(p: InfringementsPage): seq<seq<string>>
  {
    CustomersRecords(p.customerInfringements)
  }

  /** The records of a sequence of pages, in page order: one per infringement. */
  function PagesRecords(ps: seq<InfringementsPage>): (rs: seq<seq<string>>)
    ensures |rs| == PagesCount(ps)
  {
    if ps == [] then [] else PagesRecords(ps[..|ps| - 1]) + PageRecords(ps[|ps| - 1])
  }

  /** Customer order: the records of two runs of customers are the records of each, in turn. */
  lemma {:induction false} CustomersRecordsAppend(a: seq<CustomerInfringements>, b: seq<CustomerInfringements>)
    ensures CustomersRecords(a + b) == CustomersRecords(a) + CustomersRecords(b)
    decreases |b|
  {
    if b == [] {
      assert a + b == a;
    } else {
      var b', c := b[..|b| - 1], b[|b| - 1];
      assert (a + b)[..|a + b| - 1] == a + b';
      assert (a + b)[|a + b| - 1] == c;
      calc {
        CustomersRecords(a + b);
        CustomersRecords(a + b') + CustomerRecords(c);
        { CustomersRecordsAppend(a, b'); }
        CustomersRecords(a) + CustomersRecords(b') + CustomerRecords(c);
        CustomersRecords(a) + (CustomersRecords(b') + CustomerRecords(c));
      }
    }
  }

  /** Page order: the records of two runs of pages are the records of each, in turn. */
  lemma {:induction false} PagesRecordsAppend(a: seq<InfringementsPage>, b: seq<InfringementsPage>)
    ensures PagesRecords(a + b) == PagesRecords(a) + PagesRecords(b)
    decreases |b|
  {
    if b == [] {
      assert a + b == a;
    } else {
      var b', p := b[..|b| - 1], b[|b| - 1];
      assert (a + b)[..|a + b| - 1] == a + b';
      assert (a + b)[|a + b| - 1] == p;
      calc {
        PagesRecords(a + b);
        PagesRecords(a + b') + PageRecords(p);
        { PagesRecordsAppend(a, b'); }
        PagesRecords(a) + PagesRecords(b') + PageRecords(p);
        PagesRecords(a) + (PagesRecords(b') + PageRecords(p));
      }
    }
  }

  /** One more infringement of a customer: its record follows the earlier ones, behind any leading rows. */
  lemma CustomerRecordsNext(head: seq<seq<string>>, c: CustomerInfringements, i: nat)
    requires i < |c.infringements|
    ensures head + CustomerRecords(c)[..i + 1] == head + CustomerRecords(c)[..i] + [Record(c, c.infringements[i])]
  {
    assert CustomerRecords(c)[..i + 1] == CustomerRecords(c)[..i] + [Record(c, c.infringements[i])];
  }

  /** One more customer: its records follow the earlier ones, behind any leading rows. */
  lemma CustomersRecordsNext(head: seq<seq<string>>, cs: seq<CustomerInfringements>, c: nat)
    requires c < |cs|
    ensures head + CustomersRecords(cs[..c + 1]) == head + CustomersRecords(cs[..c]) + CustomerRecords(cs[c])
  {
    assert cs[..c + 1][..c] == cs[..c];
  }

  /** How many infringements a run of customers holds. */
  function CustomersCount(cs: seq<CustomerInfringements>): nat
  {
    if cs == [] then 0 else CustomersCount(cs[..|cs| - 1]) + |cs[|cs| - 1].infringements|
  }

  /** How many infringements a run of pages holds. */
  function PagesCount(ps: seq<InfringementsPage>): nat
  {
    if ps == [] then 0 else PagesCount(ps[..|ps| - 1]) + CustomersCount(ps[|ps| - 1].customerInfringements)
  }

  /** The URL of a page: the cursor is appended only when it is not empty. */
  function PageURL(path: string, cursor: string): (url: string)
    ensures cursor == "" ==> url == path
    ensures cursor != "" ==> url == path + "?cursor=" + cursor
  {
    if cursor != "" then path + "?cursor=" + cursor else path
  }

  /** The listing endpoint of a vendor's infringements in a month, relative to the API root. */
  function InfringementsPath(vendorID: string, year: int, month: int): (p: string)
    ensures |p| > 0 && p[0] == '/'
  {
    "/vendors/" + vendorID + "/customerLicenceEulaInfringements/month/" + Itoa(year) + "/" + Itoa(month)
  }

  /** In a string without a slash followed by a slash, that slash is the first one. */
  lemma FirstSlash(a: string, b: string)
    requires forall i :: 0 <= i < |a| ==> a[i] != '/'
    ensures (a + "/" + b)[|a|] == '/'
    ensures forall i :: 0 <= i < |a| ==> (a + "/" + b)[i] != '/'
  {
  }

  /** Two strings without a slash, each followed by a slash, are told apart by what follows. */
  lemma SplitAtSlash(a: string, b: string, a': string, b': string)
    requires forall i :: 0 <= i < |a| ==> a[i] != '/'
    requires forall i :: 0 <= i < |a'| ==> a'[i] != '/'
    requires a + "/" + b == a' + "/" + b'
    ensures a == a' && b == b'
  {
    var t := a + "/" + b;
    FirstSlash(a, b);
    FirstSlash(a', b');
    if |a| != |a'| {
      assert false;
    }
    assert a == t[..|a|];
    assert a' == t[..|a'|];
    assert b == t[|a| + 1..];
    assert b' == t[|a'| + 1..];
  }

  /** The listing path of a vendor names one period: distinct months have distinct paths. */
  lemma InfringementsPathNamesPeriod(vendorID: string, year: int, month: int, year': int, month': int)
    requires InfringementsPath(vendorID, year, month) == InfringementsPath(vendorID, year', month')
    ensures year == year' && month == month'
  {
    var prefix := "/vendors/" + vendorID + "/customerLicenceEulaInfringements/month/";
    var a, b, a', b' := Itoa(year), Itoa(month), Itoa(year'), Itoa(month');
    assert InfringementsPath(vendorID, year, month) == prefix + (a + "/" + b);
    assert InfringementsPath(vendorID, year', month') == prefix + (a' + "/" + b');
    assert a + "/" + b == (prefix + (a + "/" + b))[|prefix|..];
    assert a' + "/" + b' == (prefix + (a' + "/" + b'))[|prefix|..];
    forall i | 0 <= i < |a| ensures a[i] != '/' {
      if i > 0 {
        assert a[i] == a[1..][i - 1];
      }
    }
    forall i | 0 <= i < |a'| ensures a'[i] != '/' {
      if i > 0 {
        assert a'[i] == a'[1..][i - 1];
      }
    }
    SplitAtSlash(a, b, a', b');
    ItoaInjective(year, year');
    ItoaInjective(month, month');
  }

  /**
   * getInfringementPage after doCall: a call error passes through; a nil
   * response or body is dereferenced; a status other than 200 is
   * ErrUnexpectedResponse; then the body is read and decoded.
   */
  function PageFrom(reply: Reply, unmarshal: string -> Result<InfringementsPage, GoError>): (r: Result<InfringementsPage, Error>)
    ensures reply.err.Some? ==> r == Failure(reply.err.value)
    ensures reply.err.None? && reply.rep.None? ==> r == Failure(NilDereference)
    ensures reply.err.None? && reply.rep.Some? && reply.rep.value.statusCode != StatusOK ==>
      r == Failure(UnexpectedResponse)
    ensures reply.err.None? && reply.rep.Some? && reply.rep.value.statusCode == StatusOK ==>
      && (reply.rep.value.body.None? ==> r == Failure(NilDereference))
      && (reply.rep.value.body.Some? && reply.rep.value.body.value.Unreadable? ==>
            r == Failure(reply.rep.value.body.value.cause))
      && (reply.rep.value.body.Some? && reply.rep.value.body.value.Content? ==>
            r == unmarshal(reply.rep.value.body.value.data))
    ensures r.Success? ==>
      reply.err.None? && reply.rep.Some? && reply.rep.value.statusCode == StatusOK &&
      reply.rep.value.body.Some? && reply.rep.value.body.value.Content? &&
      r == unmarshal(reply.rep.value.body.value.data)
  {
    if reply.err.Some? then Failure(reply.err.value)
    else if reply.rep.None? then Failure(NilDereference)
    else if reply.rep.value.statusCode != StatusOK then Failure(UnexpectedResponse)
    else match reply.rep.value.body
      case None => Failure(NilDereference)
      case Some(Unreadable(e)) => Failure(e)
      case Some(Content(data)) => unmarshal(data)
  }

  /** A fetch that ends the export: an error, or a page with an empty cursor. */
  predicate Final(r: Result<InfringementsPage, Error>) {
    r.Failure? || r.value.cursor == ""
  }

  /** The fetches of one export run: the last one ends it, no earlier one does. */
  predicate Trace(fetched: seq<Result<InfringementsPage, Error>>) {
    && |fetched| > 0
    && Final(fetched[|fetched| - 1])
    && forall k :: 0 <= k < |fetched| - 1 ==> !Final(fetched[k])
  }

  /** The pages of fetches that all succeeded. */
  function Pages(fetched: seq<Result<InfringementsPage, Error>>): (ps: seq<InfringementsPage>)
    requires forall k :: 0 <= k < |fetched| ==> fetched[k].Success?
    ensures |ps| == |fetched|
    ensures forall k :: 0 <= k < |ps| ==> ps[k] == fetched[k].value
  {
    seq(|fetched|, k requires 0 <= k < |fetched| => fetched[k].value)
  }

  /**
   * The CSV document an export run writes: the header, then the records of
   * every page in order; or the error of its last fetch, and nothing at all.
   */
  function Export(fetched: seq<Result<InfringementsPage, Error>>): (r: Result<seq<seq<string>>, Error>)
    requires Trace(fetched)
    ensures r.Failure? <==> fetched[|fetched| - 1].Failure?
    ensures r.Failure? ==> r.error == fetched[|fetched| - 1].error
    ensures r.Success? ==> |r.value| > 0 && r.value[0] == Header
  {
    var last := fetched[|fetched| - 1];
    if last.Failure? then Failure(last.error)
    else Success([Header] + PagesRecords(Pages(fetched)))
  }

  /** Pages that list no infringement leave the header alone in the document. */
  lemma ExportWithoutInfringements(fetched: seq<Result<InfringementsPage, Error>>)
    requires Trace(fetched) && fetched[|fetched| - 1].Success?
    requires forall k :: 0 <= k < |fetched| ==> CustomersCount(fetched[k].value.customerInfringements) == 0
    ensures Export(fetched) == Success([Header])
  {
    assert forall k :: 0 <= k < |fetched| - 1 ==> fetched[k].Success? by {
      forall k | 0 <= k < |fetched| - 1 ensures fetched[k].Success? {
        assert !Final(fetched[k]);
      }
    }
    var ps := Pages(fetched);
    forall k | 0 <= k < |ps| ensures CustomersCount(ps[k].customerInfringements) == 0 {
      assert ps[k] == fetched[k].value;
    }
    NoInfringementsNoRecords(ps);
    assert [Header] + PagesRecords(ps) == [Header];
  }

  lemma {:induction false} NoInfringementsNoRecords(ps: seq<InfringementsPage>)
    requires forall k :: 0 <= k < |ps| ==> CustomersCount(ps[k].customerInfringements) == 0
    ensures PagesRecords(ps) == []
    decreases |ps|
  {
    if ps != [] {
      NoInfringementsNoRecords(ps[..|ps| - 1]);
    }
  }

  /**
   * A worked run: a first page with one infringement and cursor "c1", then
   * an empty last page, give the header and one record.
   */
  lemma TwoPageExport()
    ensures
      var i := Infringement("month", 2018, 7, "P1", "", "F1", "L1", 2, 5);
      var first := InfringementsPage("c1", [CustomerInfringements("A", "VA", [i])]);
      var last := InfringementsPage("", []);
      Export([Success(first), Success(last)])
        == Success([Header, ["A", "VA", "month", "2018", "7", "P1", "F1", "L1", "2", "5"]])
  {
    var i := Infringement("month", 2018, 7, "P1", "", "F1", "L1", 2, 5);
    var c := CustomerInfringements("A", "VA", [i]);
    var first := InfringementsPage("c1", [c]);
    var last := InfringementsPage("", []);
    var fetched: seq<Result<InfringementsPage, Error>> := [Success(first), Success(last)];
    assert Itoa(2018) == "2018" by {
      assert NatDigits(2) == "2";
      assert NatDigits(20) == "20";
      assert NatDigits(201) == "201";
    }
    assert Record(c, i) == ["A", "VA", "month", "2018", "7", "P1", "F1", "L1", "2", "5"];
    assert CustomerRecords(c) == [Record(c, i)];
    assert [c][..0] == [];
    assert CustomersRecords([c]) == CustomersRecords([]) + CustomerRecords(c);
    assert PageRecords(first) == [Record(c, i)];
    assert PageRecords(last) == [];
    var ps := Pages(fetched);
    assert ps == [first, last];
    assert ps[..1] == [first] && [first][..0] == [];
    assert PagesRecords([first]) == PagesRecords([]) + PageRecords(first);
    assert PagesRecords(ps) == PagesRecords([first]) + PageRecords(last);
    assert PagesRecords(ps) == [Record(c, i)];
    assert Trace(fetched);
    assert Export(fetched) == Success([Header] + [Record(c, i)]);
    assert [Header] + [Record(c, i)] == [Header, ["A", "VA", "month", "2018", "7", "P1", "F1", "L1", "2", "5"]];
  }
}
