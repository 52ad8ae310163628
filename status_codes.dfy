/**
 * `get_status_codes` (src/main.rs:5-81): the table of HTTP status codes and
 * their reason phrases, built by inserting one pair after another into an
 * ordered map, and the facts that hold of the finished table.
 */
module StatusCodes {
  import opened Decimal
  import opened OrderedMap

  /** 1xx Informational, src/main.rs:9-12. */
  const Informational: seq<Entry> := [
    Entry(100, "Continue"),
    Entry(101, "Switching Protocols"),
    Entry(102, "Processing"),
    Entry(103, "Early Hints")
  ]

  /** 2xx Success, src/main.rs:15-24. */
  const Successful: seq<Entry> := [
    Entry(200, "OK"),
    Entry(201, "Created"),
    Entry(202, "Accepted"),
    Entry(203, "Non-Authoritative Information"),
    Entry(204, "No Content"),
    Entry(205, "Reset Content"),
    Entry(206, "Partial Content"),
    Entry(207, "Multi-Status"),
    Entry(208, "Already Reported"),
    Entry(226, "IM Used")
  ]

  /** 3xx Redirection, src/main.rs:27-34. */
  const Redirection: seq<Entry> := [
    Entry(300, "Multiple Choices"),
    Entry(301, "Moved Permanently"),
    Entry(302, "Found"),
    Entry(303, "See Other"),
    Entry(304, "Not Modified"),
    Entry(305, "Use Proxy"),
    Entry(307, "Temporary Redirect"),
    Entry(308, "Permanent Redirect")
  ]

  /** 4xx Client Error, src/main.rs:37-65. */
  const ClientError: seq<Entry> := [
    Entry(400, "Bad Request"),
    Entry(401, "Unauthorized"),
    Entry(402, "Payment Required"),
    Entry(403, "Forbidden"),
    Entry(404, "Not Found"),
    Entry(405, "Method Not Allowed"),
    Entry(406, "Not Acceptable"),
    Entry(407, "Proxy Authentication Required"),
    Entry(408, "Request Timeout"),
    Entry(409, "Conflict"),
    Entry(410, "Gone"),
    Entry(411, "Length Required"),
    Entry(412, "Precondition Failed"),
    Entry(413, "Payload Too Large"),
    Entry(414, "URI Too Long"),
    Entry(415, "Unsupported Media Type"),
    Entry(416, "Range Not Satisfiable"),
    Entry(417, "Expectation Failed"),
    Entry(418, "I'm a teapot"),
    Entry(421, "Misdirected Request"),
    Entry(422, "Unprocessable Entity"),
    Entry(423, "Locked"),
    Entry(424, "Failed Dependency"),
    Entry(425, "Too Early"),
    Entry(426, "Upgrade Required"),
    Entry(428, "Precondition Required"),
    Entry(429, "Too Many Requests"),
    Entry(431, "Request Header Fields Too Large"),
    Entry(451, "Unavailable For Legal Reasons")
  ]

  /** 5xx Server Error, src/main.rs:68-78. */
  const ServerError: seq<Entry> := [
    Entry(500, "Internal Server Error"),
    Entry(501, "Not Implemented"),
    Entry(502, "Bad Gateway"),
    Entry(503, "Service Unavailable"),
    Entry(504, "Gateway Timeout"),
    Entry(505, "HTTP Version Not Supported"),
    Entry(506, "Variant Also Negotiates"),
    Entry(507, "Insufficient Storage"),
    Entry(508, "Loop Detected"),
    Entry(510, "Not Extended"),
    Entry(511, "Network Authentication Required")
  ]

  /**
   * Every pair the source inserts, in the order of its insert statements
   * (which is also ascending code order).
   */
  const StatusTable: seq<Entry> := Informational + Successful + Redirection + ClientError + ServerError

  /**
   * `get_status_codes`: a fresh map receives one insert per pair of
   * StatusTable, in order. Every insert finds its code absent (NoOverwrite)
   * and appends; the finished map holds exactly the table's 62 pairs, in
   * ascending code order.
   */
  method BuildStatusCodes() returns (m: CodeMap)
    ensures fresh(m) && m.Valid()
    ensures m.entries == StatusTable && |m.entries| == 62
  {
    m := new CodeMap();
    StatusTableAscending();
    for k := 0 to |StatusTable|
      invariant m.Valid() && m.entries == StatusTable[..k]
    {
      assert k > 0 ==> StatusTable[..k][k - 1] == StatusTable[k - 1];
      NoOverwrite(k);
      var prev := m.Insert(StatusTable[k].code, StatusTable[k].reason);
      assert prev == None;
      assert StatusTable[..k + 1] == StatusTable[..k] + [StatusTable[k]];
    }
  }

  /** The block of inserts for class `digit`xx, as grouped in the source. */
  function ClassBlock(digit: nat): seq<Entry> {
    if digit == 1 then Informational
    else if digit == 2 then Successful
    else if digit == 3 then Redirection
    else if digit == 4 then ClientError
    else if digit == 5 then ServerError
    else []
  }

  // ----- Classes of status codes -----

  /**
   * `code` lies in class `digit`xx: it is in [digit * 100, digit * 100 + 99],
   * so its digit digit is `digit`.
   */
  predicate InClass(code: int, digit: nat) {
    digit * 100 <= code < digit * 100 + 100
  }

  /** Every entry of `s` lies in class `digit`xx and has a non-empty reason phrase. */
  predicate ClassRun(s: seq<Entry>, digit: nat) {
    forall i :: 0 <= i < |s| ==> InClass(s[i].code, digit) && |s[i].reason| > 0
  }

  /** The number of entries whose code lies in class `digit`xx. */
  function ClassCount(s: seq<Entry>, digit: nat): (n: nat)
    ensures n <= |s|
  {
    if s == [] then 0
    else (if InClass(s[0].code, digit) then 1 else 0) + ClassCount(s[1..], digit)
  }

  lemma {:induction false} ClassCountAppend(a: seq<Entry>, b: seq<Entry>, digit: nat)
    ensures ClassCount(a + b, digit) == ClassCount(a, digit) + ClassCount(b, digit)
  {
    if a == [] {
      assert a + b == b;
    } else {
      assert (a + b)[1..] == a[1..] + b;
      ClassCountAppend(a[1..], b, digit);
    }
  }

  /** A run of entries that all lie in one class counts fully there and nowhere else. */
  lemma {:induction false} ClassCountOfClass(s: seq<Entry>, run: nat, digit: nat)
    requires ClassRun(s, run)
    ensures ClassCount(s, digit) == if digit == run then |s| else 0
  {
    if s != [] {
      ClassCountOfClass(s[1..], run, digit);
    }
  }

  /** A code outside a run's class is not found in that run. */
  lemma LookupOutsideRun(s: seq<Entry>, digit: nat, code: U16)
    requires ClassRun(s, digit) && !InClass(code, digit)
    ensures Lookup(s, code) == None
  {
    forall i | 0 <= i < |s|
      ensures s[i].code != code
    {
    }
    LookupSpec(s, code);
  }

  /** Five runs, one per class 1xx to 5xx, in class order. */
  predicate FiveClasses(a: seq<Entry>, b: seq<Entry>, c: seq<Entry>, d: seq<Entry>, e: seq<Entry>) {
    ClassRun(a, 1) && ClassRun(b, 2) && ClassRun(c, 3) && ClassRun(d, 4) && ClassRun(e, 5)
  }

  /** Joining one run per class: each class counts exactly its own run. */
  lemma ClassCountFiveClasses(a: seq<Entry>, b: seq<Entry>, c: seq<Entry>, d: seq<Entry>, e: seq<Entry>, digit: nat)
    requires FiveClasses(a, b, c, d, e)
    ensures ClassCount(a + b + c + d + e, digit) ==
              if digit == 1 then |a| else if digit == 2 then |b| else if digit == 3 then |c|
              else if digit == 4 then |d| else if digit == 5 then |e| else 0
  {
    ClassCountOfClass(a, 1, digit);
    ClassCountOfClass(b, 2, digit);
    ClassCountOfClass(c, 3, digit);
    ClassCountOfClass(d, 4, digit);
    ClassCountOfClass(e, 5, digit);
    ClassCountAppend(a, b, digit);
    ClassCountAppend(a + b, c, digit);
    ClassCountAppend(a + b + c, d, digit);
    ClassCountAppend(a + b + c + d, e, digit);
  }

  /** Joining one run per class: a code is looked up in its own class's run only. */
  lemma LookupFiveClasses(a: seq<Entry>, b: seq<Entry>, c: seq<Entry>, d: seq<Entry>, e: seq<Entry>, code: U16)
    requires FiveClasses(a, b, c, d, e)
    ensures Lookup(a + b + c + d + e, code) ==
              if InClass(code, 1) then Lookup(a, code) else if InClass(code, 2) then Lookup(b, code)
              else if InClass(code, 3) then Lookup(c, code) else if InClass(code, 4) then Lookup(d, code)
              else if InClass(code, 5) then Lookup(e, code) else None
  {
    if !InClass(code, 1) { LookupOutsideRun(a, 1, code); }
    if !InClass(code, 2) { LookupOutsideRun(b, 2, code); }
    if !InClass(code, 3) { LookupOutsideRun(c, 3, code); }
    if !InClass(code, 4) { LookupOutsideRun(d, 4, code); }
    if !InClass(code, 5) { LookupOutsideRun(e, 5, code); }
    LookupAppend(a, b, code);
    LookupAppend(a + b, c, code);
    LookupAppend(a + b + c, d, code);
    LookupAppend(a + b + c + d, e, code);
  }

  /** Joining one run per class: every code is in [100, 599] with a non-empty phrase. */
  lemma FiveClassesInRange(a: seq<Entry>, b: seq<Entry>, c: seq<Entry>, d: seq<Entry>, e: seq<Entry>)
    requires FiveClasses(a, b, c, d, e)
    ensures forall i :: 0 <= i < |a + b + c + d + e| ==>
              100 <= (a + b + c + d + e)[i].code <= 599 && |(a + b + c + d + e)[i].reason| > 0
  {
    var s := a + b + c + d + e;
    forall i | 0 <= i < |s|
      ensures 100 <= s[i].code <= 599 && |s[i].reason| > 0
    {
      if i < |a| {
        assert s[i] == a[i];
      } else if i < |a + b| {
        assert s[i] == b[i - |a|];
      } else if i < |a + b + c| {
        assert s[i] == c[i - |a + b|];
      } else if i < |a + b + c + d| {
        assert s[i] == d[i - |a + b + c|];
      } else {
        assert s[i] == e[i - |a + b + c + d|];
      }
    }
  }

  // ----- Facts about the table as written -----

  /** The 1xx block stays inside its class. */
  lemma InformationalInClass()
    ensures ClassRun(Informational, 1)
  {
  }

  /** The 2xx block stays inside its class. */
  lemma SuccessfulInClass()
    ensures ClassRun(Successful, 2)
  {
  }

  /** The 3xx block stays inside its class. */
  lemma RedirectionInClass()
    ensures ClassRun(Redirection, 3)
  {
  }

  /** The 4xx block stays inside its class. */
  lemma ClientErrorInClass()
    ensures ClassRun(ClientError, 4)
  {
  }

  /** The 5xx block stays inside its class. */
  lemma ServerErrorInClass()
    ensures ClassRun(ServerError, 5)
  {
  }

  /** The five blocks of inserts each stay inside their own class. */
  lemma TableInClasses()
    ensures FiveClasses(Informational, Successful, Redirection, ClientError, ServerError)
  {
    InformationalInClass();
    SuccessfulInClass();
    RedirectionInClass();
    ClientErrorInClass();
    ServerErrorInClass();
  }

  /** Within each block the codes ascend from one entry to the next. */
  lemma BlocksAscending()
    ensures Ascending(Informational) && Ascending(Successful) && Ascending(Redirection)
    ensures Ascending(ClientError) && Ascending(ServerError)
  {
    AscendingFromAdjacent(Informational);
    AscendingFromAdjacent(Successful);
    AscendingFromAdjacent(Redirection);
    AscendingFromAdjacent(ClientError);
    AscendingFromAdjacent(ServerError);
  }

  /** The table's codes are unique and ascending: no insert repeats an earlier code. */
  lemma StatusTableAscending()
    ensures Ascending(StatusTable)
  {
    BlocksAscending();
    var s := Informational;
    AscendingAppend(s, Successful);
    s := s + Successful;
    AscendingAppend(s, Redirection);
    s := s + Redirection;
    AscendingAppend(s, ClientError);
    s := s + ClientError;
    AscendingAppend(s, ServerError);
  }

  /**
   * The table has 62 entries, every code is in [100, 599] and every reason
   * phrase is non-empty.
   */
  lemma StatusTableWellFormed()
    ensures |StatusTable| == 62
    ensures forall i :: 0 <= i < |StatusTable| ==>
              100 <= StatusTable[i].code <= 599 && |StatusTable[i].reason| > 0
  {
    TableInClasses();
    FiveClassesInRange(Informational, Successful, Redirection, ClientError, ServerError);
  }

  /**
   * Per-class counts: 1xx = 4, 2xx = 10, 3xx = 8, 4xx = 29, 5xx = 11, and no
   * entry in any other class.
   */
  lemma ClassCounts(digit: nat)
    ensures ClassCount(StatusTable, digit) ==
              if digit == 1 then 4 else if digit == 2 then 10 else if digit == 3 then 8
              else if digit == 4 then 29 else if digit == 5 then 11 else 0
  {
    TableInClasses();
    ClassCountFiveClasses(Informational, Successful, Redirection, ClientError, ServerError, digit);
  }

  /** Looking a code up in the table looks in its class's block only. */
  lemma LookupByClass(code: U16)
    ensures Lookup(StatusTable, code) == Lookup(ClassBlock(code / 100), code)
  {
    TableInClasses();
    LookupFiveClasses(Informational, Successful, Redirection, ClientError, ServerError, code);
  }

  /**
   * No insert of `get_status_codes` overwrites: when the `k`-th pair is
   * inserted, its code is not yet in the map built from the pairs before it.
   */
  lemma NoOverwrite(k: nat)
    requires k < |StatusTable|
    ensures Lookup(StatusTable[..k], StatusTable[k].code) == None
  {
    StatusTableAscending();
    AscendingFreshKey(StatusTable, k);
  }

  /** Only codes in [100, 599] are found in the table. */
  lemma LookupOnlyInRange(code: U16)
    requires Lookup(StatusTable, code).Some?
    ensures 100 <= code <= 599
  {
    StatusTableWellFormed();
    LookupSpec(StatusTable, code);
  }

  /** 200 OK, src/main.rs:15. */
  lemma FixedPointOk()
    ensures Lookup(StatusTable, 200) == Some("OK")
  {
    StatusTableAscending();
    LookupAt(StatusTable, 4);
  }

  /** 302 Found, src/main.rs:29. */
  lemma FixedPointFound()
    ensures Lookup(StatusTable, 302) == Some("Found")
  {
    StatusTableAscending();
    LookupAt(StatusTable, 16);
  }

  /** 404 Not Found, src/main.rs:41. */
  lemma FixedPointNotFound()
    ensures Lookup(StatusTable, 404) == Some("Not Found")
  {
    StatusTableAscending();
    LookupAt(StatusTable, 26);
  }

  /** 418 I'm a teapot, src/main.rs:55. */
  lemma FixedPointTeapot()
    ensures Lookup(StatusTable, 418) == Some("I'm a teapot")
  {
    StatusTableAscending();
    LookupAt(StatusTable, 40);
  }

  /** 306 is never inserted: the table jumps from 305 Use Proxy to 307 Temporary Redirect. */
  lemma Absent306()
    ensures Lookup(StatusTable, 306) == None
  {
    StatusTableAscending();
    assert StatusTable[19].code == 305 && StatusTable[20].code == 307;
    forall i | 0 <= i < |StatusTable|
      ensures StatusTable[i].code != 306
    {
      if i < 19 {
        assert StatusTable[i].code < StatusTable[19].code;
      } else if i > 20 {
        assert StatusTable[20].code < StatusTable[i].code;
      }
    }
    LookupSpec(StatusTable, 306);
  }

  /** Codes outside [100, 599], such as 666 and 999, are absent. */
  lemma AbsentOutOfRange(code: U16)
    requires code < 100 || 599 < code
    ensures Lookup(StatusTable, code) == None
  {
    StatusTableWellFormed();
    LookupSpec(StatusTable, code);
  }
}
