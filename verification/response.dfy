/** How sendEventOrUpdate reads a response body. */
module Response {
  import opened Strings
  import opened Mixpanel

  /** A body is accepted exactly when `"status": 1` occurs in it, wherever it occurs. */
  lemma MarkerAnywhere(before: string, after: string)
    ensures SendEventOrUpdate(before + SuccessMarker + after)
  {
    assert OccursAt(SuccessMarker, SuccessMarker, 0);
    OccursExtend(before, SuccessMarker, after, SuccessMarker);
  }

  /** Whatever surrounds an accepted body, the whole is accepted too. */
  lemma AcceptedInContext(before: string, body: string, after: string)
    requires SendEventOrUpdate(body)
    ensures SendEventOrUpdate(before + body + after)
  {
    OccursExtend(before, body, after, SuccessMarker);
  }

  /** A body without the digit 1 anywhere, such as one reporting `"status": 0`, is rejected. */
  lemma NoOneRejected(body: string)
    requires '1' !in body
    ensures !SendEventOrUpdate(body)
  {
    OccursNeedsLast(body, SuccessMarker);
  }

  /** The service's reply to an accepted call is accepted. */
  lemma StatusOneAccepted()
    ensures SendEventOrUpdate("{\"status\": 1}")
  {
    MarkerAnywhere("{", "}");
    AcceptedReplyText();
  }

  lemma AcceptedReplyText()
    ensures "{" + SuccessMarker + "}" == "{\"status\": 1}"
  {
  }

  /** The service's verbose reply to a rejected call is rejected. */
  lemma StatusZeroRejected()
    ensures !SendEventOrUpdate("{\"status\": 0, \"error\": null}")
  {
    NoOneRejected("{\"status\": 0, \"error\": null}");
  }

  /** The test is textual: a compact `"status":1` without the space is rejected. */
  lemma CompactStatusRejected()
    ensures !SendEventOrUpdate("{\"status\":1}")
  {
    var body := "{\"status\":1}";
    forall i | 0 <= i && i + |SuccessMarker| <= |body|
      ensures !OccursAt(body, SuccessMarker, i)
    {
      if i == 0 {
        assert body[i..i + |SuccessMarker|][0] != SuccessMarker[0];
      } else {
        assert body[i..i + |SuccessMarker|][9] != SuccessMarker[9];
      }
    }
  }
}
