/**
 * The ticket and RSVP tool dev_tickets.py: how a contact name is split into first and last name,
 * the loop of `create_bulk_rsvps`, and the defaults of the `add-ticket` command. The Wix calls are
 * given as their outcomes.
 */
module DevTickets {
  import opened Wrappers
  import opened Text
  import opened Config
  import opened WixApi

  // ----- name splitting -----

  /** The leading run of non-whitespace ends at the first whitespace character, or at the end. */
  lemma {:induction false} SpaceIndexAt(s: string, k: nat)
    requires k <= |s| && (k < |s| ==> IsSpace(s[k]))
    requires forall i :: 0 <= i < k ==> !IsSpace(s[i])
    ensures SpaceIndex(s) == k
  {
    if k > 0 {
      assert !IsSpace(s[0]);
      SpaceIndexAt(s[1..], k - 1);
    }
  }

  /** A string with no whitespace splits into itself. */
  lemma WordsOfWord(w: string)
    requires IsWord(w)
    ensures Words(w) == [w]
  {
    assert LStrip(w) == w;
    SpaceIndexAt(w, |w|);
    assert w[..|w|] == w;
    assert w[|w|..] == [];
    assert Words([]) == [];
  }

  /** A word, a space and a rest split into the word followed by the words of the rest. */
  lemma WordsCons(w: string, rest: string)
    requires IsWord(w)
    ensures Words(w + " " + rest) == [w] + Words(rest)
  {
    var s := w + " " + rest;
    WordThenSpace(w, rest);
    assert LStrip(s) == s;
    var tail := s[|w|..];
    assert tail == [' '] + rest;
    LStripSpace(rest);
  }

  /** A word followed by a space is read up to that space. */
  lemma WordThenSpace(w: string, rest: string)
    requires IsWord(w)
    ensures var s := w + " " + rest; s[0] == w[0] && SpaceIndex(s) == |w| && s[..|w|] == w
  {
    var s := w + " " + rest;
    assert s[|w|] == ' ' && IsSpace(' ');
    assert forall i :: 0 <= i < |w| ==> s[i] == w[i];
    SpaceIndexAt(s, |w|);
  }

  /** A leading space is stripped. */
  lemma LStripSpace(rest: string)
    ensures LStrip([' '] + rest) == LStrip(rest)
  {
    assert ([' '] + rest)[1..] == rest;
  }

  /** A name joined by a space contains a space. */
  lemma SpaceBetween(first: string, rest: string)
    ensures ' ' in first + " " + rest
  {
    assert (first + " " + rest)[|first|] == ' ';
  }

  /** With a space and two words, the split takes the first two words. */
  lemma SplitNameTwo(name: string, defaultLast: string)
    requires ' ' in name && |Words(name)| >= 2
    ensures SplitName(name, defaultLast) == Ok((Words(name)[0], Words(name)[1]))
  {
  }

  /** A word, a space and a rest whose first word is `second` split into those two names. */
  lemma SplitTwoWords(first: string, rest: string, second: string, defaultLast: string)
    requires IsWord(first) && Words(rest) != [] && Words(rest)[0] == second
    ensures SplitName(first + " " + rest, defaultLast) == Ok((first, second))
  {
    WordsCons(first, rest);
    SpaceBetween(first, rest);
    SplitNameTwo(first + " " + rest, defaultLast);
  }

  /** Two words followed by anything split into those two words. */
  lemma TwoWordsThen(first: string, second: string, rest: string, defaultLast: string)
    requires IsWord(first) && IsWord(second)
    ensures SplitName(first + " " + (second + " " + rest), defaultLast) == Ok((first, second))
  {
    WordsCons(second, rest);
    SplitTwoWords(first, second + " " + rest, second, defaultLast);
  }

  /**
   * `first_name` and `last_name` as `create_test_rsvp` and `create_test_ticket_order` compute them:
   * with a space in the name, its first and second words, which raise IndexError when the name has
   * fewer than two words; otherwise the whole name and the default last name.
   */
  function SplitName(name: string, defaultLast: string): Result<(string, string), string> {
    if ' ' !in name then Ok((name, defaultLast))
    else
      var words := Words(name);
      if |words| < 2 then Err("IndexError: list index out of range")
      else Ok((words[0], words[1]))
  }

  /** A name with a space and a trailing space but one word raises: "Ann " has no second word. */
  lemma TrailingSpaceRaises()
    ensures SplitName("Ann ", "User").Err?
  {
    assert IsWord("Ann");
    assert "Ann " == "Ann" + " " + "";
    WordsCons("Ann", "");
    assert Words("") == [];
    SpaceBetween("Ann", "");
  }

  /**
   * The split as evidently intended: the same words when there are two, the whole name for a name
   * without words, and the default last name when the second word is missing.
   */
  function SplitNameTotal(name: string, defaultLast: string): (r: (string, string))
    ensures SplitName(name, defaultLast).Ok? ==> r == SplitName(name, defaultLast).value
    ensures r.1 == defaultLast || r.1 in Words(name)
    ensures Words(name) != [] && ' ' in name ==> r.0 == Words(name)[0]
    ensures |Words(name)| < 2 ==> r.1 == defaultLast
    ensures Words(name) == [] ==> r.0 == name
  {
    var words := Words(name);
    if ' ' in name && words != [] then (words[0], if |words| >= 2 then words[1] else defaultLast)
    else (name, defaultLast)
  }

  /** The evidently intended split of "Ann " gives her the default last name. */
  lemma TrailingSpaceTotal()
    ensures SplitNameTotal("Ann ", "User") == ("Ann", "User")
  {
    assert IsWord("Ann");
    assert "Ann " == "Ann" + " " + "";
    WordsCons("Ann", "");
    assert Words("") == [];
    SpaceBetween("Ann", "");
  }

  // ----- create_test_rsvp and create_bulk_rsvps -----

  /** `contact_info`. */
  datatype Contact = Contact(firstName: string, lastName: string, email: string)

  /** The `create_rsvp` call: the event, the contact and the guest count. */
  datatype RsvpRequest = RsvpRequest(eventId: string, contact: Contact, guestCount: int)

  /** Python truthiness of a response document: it has some member. */
  predicate Truthy(doc: JsonDoc) {
    doc.keys != {}
  }

  /**
   * `create_test_rsvp` with the outcome of the `create_rsvp` call given (None when it raises): the
   * request sent, with the contact named by the corrected split, and the call's outcome. Wherever the
   * split as written does not raise, the contact is the one it gives.
   */
  method CreateTestRsvp(eventId: string, name: string, email: string, guests: int, outcome: Option<JsonDoc>)
    returns (request: RsvpRequest, result: Option<JsonDoc>)
    ensures request.eventId == eventId && request.contact.email == email && request.guestCount == guests
    ensures (request.contact.firstName, request.contact.lastName) == SplitNameTotal(name, "User")
    ensures SplitName(name, "User").Ok? ==>
      (request.contact.firstName, request.contact.lastName) == SplitName(name, "User").value
    ensures ' ' !in name ==> request.contact.firstName == name && request.contact.lastName == "User"
    ensures result == outcome
  {
    var firstName, lastName;
    if ' ' in name {
      var words := Words(name);
      if words == [] {
        firstName, lastName := name, "User";
      } else {
        firstName := words[0];
        lastName := if |words| >= 2 then words[1] else "User";
      }
    } else {
      firstName, lastName := name, "User";
    }
    request := RsvpRequest(eventId, Contact(firstName, lastName, email), guests);
    result := outcome;
  }

  /** The name of the i-th bulk RSVP. */
  function BulkName(i: nat): string {
    "Test User " + NatToString(i)
  }

  /** The email of the i-th bulk RSVP. */
  function BulkEmail(i: nat): string {
    "testuser" + NatToString(i) + "@example.com"
  }

  /** A bulk name never raises: it splits into "Test" and "User". */
  lemma BulkNameSplits(i: nat)
    ensures SplitName(BulkName(i), "User") == Ok(("Test", "User"))
  {
    var digits := NatToString(i);
    assert IsWord("User") && IsWord("Test");
    assert BulkName(i) == "Test" + " " + ("User" + " " + digits);
    TwoWordsThen("Test", "User", digits, "User");
  }

  /** The i-th request of `create_bulk_rsvps`: "Test" "User" at the i-th email, with one guest. */
  function BulkRequest(eventId: string, i: nat): RsvpRequest {
    RsvpRequest(eventId, Contact("Test", "User", BulkEmail(i)), 1)
  }

  /** One RSVP of `create_bulk_rsvps`: the request for "Test User i", which never raises. */
  method BulkRsvp(eventId: string, i: nat, outcome: Option<JsonDoc>) returns (request: RsvpRequest, result: Option<JsonDoc>)
    ensures request == BulkRequest(eventId, i)
    ensures result == outcome
  {
    BulkNameSplits(i);
    request, result := CreateTestRsvp(eventId, BulkName(i), BulkEmail(i), 1, outcome);
  }

  /** The kept responses among the first `n` calls, in order. */
  function Kept(outcomes: nat -> Option<JsonDoc>, n: nat): (r: seq<JsonDoc>)
    ensures |r| <= n
    ensures forall d :: d in r ==> Truthy(d)
  {
    if n == 0 then []
    else
      var last := outcomes(n - 1);
      Kept(outcomes, n - 1) + (if last.Some? && Truthy(last.value) then [last.value] else [])
  }

  /**
   * `create_bulk_rsvps` with the i-th call's outcome given: RSVPs 1 to `count` for "Test User i" at
   * "testuser<i>@example.com" with one guest each, keeping only the non-empty responses.
   */
  method CreateBulkRsvps(eventId: string, count: int, outcomes: nat -> Option<JsonDoc>)
    returns (requests: seq<RsvpRequest>, results: seq<JsonDoc>)
    ensures |requests| == if count < 0 then 0 else count
    ensures forall j :: 0 <= j < |requests| ==> requests[j] == BulkRequest(eventId, j + 1)
    ensures results == Kept(outcomes, |requests|)
    ensures |results| <= |requests|
  {
    var n: nat := if count < 0 then 0 else count;
    requests, results := [], [];
    for k := 0 to n
      invariant |requests| == k
      invariant forall j :: 0 <= j < k ==> requests[j] == BulkRequest(eventId, j + 1)
      invariant results == Kept(outcomes, k)
    {
      var request, result := BulkRsvp(eventId, k + 1, outcomes(k));
      requests := requests + [request];
      assert Kept(outcomes, k + 1) == Kept(outcomes, k) + (if result.Some? && Truthy(result.value) then [result.value] else []);
      if result.Some? && Truthy(result.value) {
        results := results + [result.value];
      }
    }
  }

  // ----- create_test_ticket_order -----

  /** `checkout_info.buyerInfo`. */
  datatype BuyerInfo = BuyerInfo(firstName: string, lastName: string, email: string)

  /**
   * The buyer of `create_test_ticket_order`: the name split as for an RSVP, by the corrected split,
   * with "Buyer" as default last name.
   */
  function BuyerInfoOf(buyerName: string, buyerEmail: string): (r: BuyerInfo)
    ensures r.email == buyerEmail
    ensures SplitName(buyerName, "Buyer").Ok? ==> (r.firstName, r.lastName) == SplitName(buyerName, "Buyer").value
    ensures r.lastName == "Buyer" || r.lastName in Words(buyerName)
    ensures ' ' !in buyerName ==> r == BuyerInfo(buyerName, "Buyer", buyerEmail)
  {
    var (first, last) := SplitNameTotal(buyerName, "Buyer");
    BuyerInfo(first, last, buyerEmail)
  }

  /** A buyer name of two words gives those two words. */
  lemma TwoWordBuyer(first: string, last: string, email: string)
    requires IsWord(first) && IsWord(last)
    ensures BuyerInfoOf(first + " " + last, email) == BuyerInfo(first, last, email)
  {
    WordsOfWord(last);
    SplitTwoWords(first, last, last, "Buyer");
    var r := BuyerInfoOf(first + " " + last, email);
    assert (r.firstName, r.lastName) == (first, last);
  }

  /** The default buyer "Test Buyer" splits into "Test" and "Buyer". */
  lemma DefaultBuyer()
    ensures BuyerInfoOf("Test Buyer", "buyer@example.com") == BuyerInfo("Test", "Buyer", "buyer@example.com")
  {
    assert IsWord("Buyer") && IsWord("Test");
    assert "Test Buyer" == "Test" + " " + "Buyer";
    TwoWordBuyer("Test", "Buyer", "buyer@example.com");
  }

  // ----- the add-ticket command -----

  /**
   * `add-ticket <event_id> [name] [price] [currency]` over the arguments after the command: the
   * ticket definition posted, with "General Admission", 25.0 and CAD for absent arguments and no
   * quantity; an error when the event id is missing or the price is not a number.
   */
  method AddTicketCommand(args: seq<string>) returns (r: Result<TicketDefinition, string>)
    ensures r.Err? <==> args == [] || (|args| > 2 && ParseFloat(args[2]).None?)
    ensures r.Ok? ==>
      && r.value.eventId == Some(args[0])
      && r.value.name == (if |args| > 1 then args[1] else "General Admission")
      && r.value.price == (if |args| > 2 then ParseFloat(args[2]).value else 25.0)
      && r.value.currency == (if |args| > 3 then args[3] else DefaultCurrency)
      && r.value.limited.None? && r.value.quantity.None?
  {
    if args == [] {
      return Err("event_id required");
    }
    var eventId := args[0];
    var ticketName := if |args| > 1 then args[1] else "General Admission";
    var price := 25.0;
    if |args| > 2 {
      var parsed := ParseFloat(args[2]);
      if parsed.None? {
        return Err("could not convert string to float");
      }
      price := parsed.value;
    }
    var currency := if |args| > 3 then args[3] else "CAD";
    var definition := TicketPayload(Some(eventId), ticketName, price, None, currency);
    r := Ok(definition);
  }
}
