/**
 * `SIP_KNOWLEDGE` (docnexus/app.py:197-232): the SIP request methods,
 * the response codes with their reason phrases (in table order, which
 * decides which one a converter picks first), typical call flows, header
 * names and SDP attribute names. The same fourteen methods are the
 * `SIP_METHODS` set of omnidoc/features/smart_convert.py:34 and of
 * docnexus/features/standard.py:399.
 */
module SipKnowledge {
  import opened Text

  const RequestMethods: seq<string> := [
    "INVITE", "ACK", "BYE", "CANCEL", "REGISTER", "OPTIONS",
    "PRACK", "SUBSCRIBE", "NOTIFY", "PUBLISH", "INFO", "REFER",
    "MESSAGE", "UPDATE"
  ]

  /** A response code and its reason phrase. */
  datatype Response = Response(code: string, desc: string)

  const ResponseCodes: seq<Response> := [
    Response("100", "Trying"), Response("180", "Ringing"), Response("181", "Call Is Being Forwarded"),
    Response("182", "Queued"), Response("183", "Session Progress"),
    Response("200", "OK"), Response("202", "Accepted"),
    Response("300", "Multiple Choices"), Response("301", "Moved Permanently"), Response("302", "Moved Temporarily"),
    Response("400", "Bad Request"), Response("401", "Unauthorized"), Response("403", "Forbidden"),
    Response("404", "Not Found"), Response("408", "Request Timeout"), Response("486", "Busy Here"),
    Response("487", "Request Terminated"),
    Response("500", "Server Internal Error"), Response("503", "Service Unavailable"),
    Response("600", "Busy Everywhere"), Response("603", "Decline"), Response("604", "Does Not Exist Anywhere")
  ]

  /** A named call flow: the messages in the order they are exchanged. */
  datatype Pattern = Pattern(name: string, steps: seq<string>)

  const CallFlowPatterns: seq<Pattern> := [
    Pattern("basic_call", ["INVITE", "100 Trying", "180 Ringing", "200 OK", "ACK", "BYE", "200 OK"]),
    Pattern("with_prack", ["INVITE", "100 Trying", "183 Session Progress", "PRACK", "200 OK", "180 Ringing", "PRACK", "200 OK", "200 OK", "ACK"]),
    Pattern("cancel", ["INVITE", "100 Trying", "CANCEL", "200 OK", "487 Request Terminated", "ACK"]),
    Pattern("busy", ["INVITE", "100 Trying", "486 Busy Here", "ACK"]),
    Pattern("declined", ["INVITE", "100 Trying", "603 Decline", "ACK"])
  ]

  const Headers: seq<string> := [
    "Via", "From", "To", "Call-ID", "CSeq", "Contact", "Max-Forwards",
    "Content-Type", "Content-Length", "User-Agent", "Allow", "Supported"
  ]

  const SdpAttributes: seq<string> := ["RTP", "SRTP", "RTCP", "codec", "sendrecv", "recvonly", "sendonly"]

  /** Some word of `ws` occurs in `text`. */
  predicate AnyIn(text: string, ws: seq<string>)
    decreases |ws|
  {
    ws != [] && (Contains(text, ws[0]) || AnyIn(text, ws[1..]))
  }

  /** The number of words of `ws` that occur in `text`. */
  function CountIn(text: string, ws: seq<string>): (n: nat)
    ensures n <= |ws|
    decreases |ws|
  {
    if ws == [] then 0 else (if Contains(text, ws[0]) then 1 else 0) + CountIn(text, ws[1..])
  }

  /** The text names one of the request methods. */
  predicate HasMethod(text: string) {
    AnyIn(text, RequestMethods)
  }

  /** `"code desc"`, as the converters print a response. */
  function Label(r: Response): string {
    r.code + " " + r.desc
  }

  /** `AnyIn` holds exactly when some listed word occurs in the text. */
  lemma {:induction false} AnyInIff(text: string, ws: seq<string>)
    ensures AnyIn(text, ws) <==> exists k :: 0 <= k < |ws| && Contains(text, ws[k])
    decreases |ws|
  {
    if ws != [] {
      AnyInIff(text, ws[1..]);
      if AnyIn(text, ws[1..]) {
        var k :| 0 <= k < |ws[1..]| && Contains(text, ws[1..][k]);
        assert ws[k + 1] == ws[1..][k];
      }
      if exists k :: 0 <= k < |ws| && Contains(text, ws[k]) {
        var k :| 0 <= k < |ws| && Contains(text, ws[k]);
        if k > 0 {
          assert ws[1..][k - 1] == ws[k];
        }
      }
    }
  }

  /** `CountIn` is positive exactly when `AnyIn` holds. */
  lemma {:induction false} CountInPositive(text: string, ws: seq<string>)
    ensures CountIn(text, ws) > 0 <==> AnyIn(text, ws)
    decreases |ws|
  {
    if ws != [] {
      CountInPositive(text, ws[1..]);
    }
  }

  /** The listed words that occur in the text. */
  function Present(text: string, ws: seq<string>): set<string> {
    set w | w in ws && Contains(text, w)
  }

  /** Over a list without duplicates, `CountIn` is the number of distinct listed words present. */
  lemma {:induction false} CountInIsPresent(text: string, ws: seq<string>)
    requires Distinct(ws)
    ensures CountIn(text, ws) == |Present(text, ws)|
    decreases |ws|
  {
    if ws != [] {
      var rest := ws[1..];
      assert Distinct(rest) by {
        forall a, b | 0 <= a < b < |rest|
          ensures rest[a] != rest[b]
        {
          assert rest[a] == ws[a + 1] && rest[b] == ws[b + 1];
        }
      }
      CountInIsPresent(text, rest);
      assert ws[0] !in rest by {
        forall k | 0 <= k < |rest|
          ensures rest[k] != ws[0]
        {
          assert rest[k] == ws[k + 1];
        }
      }
      assert ws == [ws[0]] + rest;
      if Contains(text, ws[0]) {
        assert Present(text, ws) == Present(text, rest) + {ws[0]};
      } else {
        assert Present(text, ws) == Present(text, rest);
      }
    }
  }
}
