/** The WhatsApp contact button (`src/components/ui/whatsapp-button.tsx`): the phone number
    loses a leading `+`, and the chat link carries the number and the encoded message. */
module WhatsApp {
  import opened Common
  import opened Strings

  const DefaultPhoneNumber := "+447903440895"
  const LinkPrefix := "https://wa.me/"
  const TextQuery := "?text="

  /** `phoneNumber.startsWith("+") ? phoneNumber.substring(1) : phoneNumber`. */
  function CleanPhoneNumber(phone: string): (r: string)
    ensures StartsWith(phone, "+") ==> "+" + r == phone
    ensures !StartsWith(phone, "+") ==> r == phone
  {
    if StartsWith(phone, "+") then phone[1..] else phone
  }

  /** Exactly one leading `+` is removed: cleaning undoes prefixing one `+`. */
  lemma CleanUndoesOnePlus(phone: string)
    ensures CleanPhoneNumber("+" + phone) == phone
    ensures StartsWith(phone, "+") ==> StartsWith(CleanPhoneNumber("+" + phone), "+")
  {
    assert StartsWith("+" + phone, "+");
    assert ("+" + phone)[1..] == phone;
  }

  lemma DefaultNumberCleans()
    ensures CleanPhoneNumber(DefaultPhoneNumber) == "447903440895"
  {
    assert DefaultPhoneNumber == "+" + "447903440895";
    CleanUndoesOnePlus("447903440895");
  }

  /** The chat link; the encoding of the message is a parameter. */
  function WhatsAppUrl(phone: string, message: string, encode: string -> string): (url: string)
    ensures StartsWith(url, LinkPrefix)
  {
    LinkPrefix + CleanPhoneNumber(phone) + TextQuery + encode(message)
  }

  /** The number in a link: what lies between the prefix and the first `?`. */
  function NumberOfUrl(url: string): Option<string> {
    if !StartsWith(url, LinkPrefix) then None
    else
      var rest := url[|LinkPrefix|..];
      match IndexOf(rest, "?")
      case None => None
      case Some(i) => Some(rest[..i])
  }

  /** The message in a link: what follows `?text=` at the first `?` after the prefix. */
  function MessageOfUrl(url: string): Option<string> {
    if !StartsWith(url, LinkPrefix) then None
    else
      var rest := url[|LinkPrefix|..];
      match IndexOf(rest, "?")
      case None => None
      case Some(i) =>
        if StartsWith(rest[i..], TextQuery) then Some(rest[i + |TextQuery|..]) else None
  }

  /** In a link whose number has no `?`, the first `?` after the prefix ends the number. */
  lemma FirstQuestionMark(phone: string, message: string, encode: string -> string)
    requires !Contains(CleanPhoneNumber(phone), "?")
    ensures WhatsAppUrl(phone, message, encode)[|LinkPrefix|..]
         == CleanPhoneNumber(phone) + TextQuery + encode(message)
    ensures IndexOf(CleanPhoneNumber(phone) + TextQuery + encode(message), "?")
         == Some(|CleanPhoneNumber(phone)|)
  {
    var clean := CleanPhoneNumber(phone);
    var url := WhatsAppUrl(phone, message, encode);
    var rest := clean + TextQuery + encode(message);
    assert url[|LinkPrefix|..] == rest;
    assert OccursAt(rest, "?", |clean|) by {
      assert rest[|clean|] == '?';
      assert rest[|clean|..|clean| + 1] == [rest[|clean|]];
    }
    forall j: nat | j < |clean| ensures !OccursAt(rest, "?", j) {
      assert rest[j..j + 1] == clean[j..j + 1];
      assert !OccursAt(clean, "?", j);
    }
    IndexOfFirst(rest, "?", |clean|);
  }

  /** A cleaned number without `?` can be read back from its link. */
  lemma NumberRoundTrip(phone: string, message: string, encode: string -> string)
    requires !Contains(CleanPhoneNumber(phone), "?")
    ensures NumberOfUrl(WhatsAppUrl(phone, message, encode)) == Some(CleanPhoneNumber(phone))
  {
    var clean := CleanPhoneNumber(phone);
    var rest := clean + TextQuery + encode(message);
    FirstQuestionMark(phone, message, encode);
    assert rest[..|clean|] == clean;
  }

  /** With such a number, the encoded message can be read back from the link too. */
  lemma MessageRoundTrip(phone: string, message: string, encode: string -> string)
    requires !Contains(CleanPhoneNumber(phone), "?")
    ensures MessageOfUrl(WhatsAppUrl(phone, message, encode)) == Some(encode(message))
  {
    var clean := CleanPhoneNumber(phone);
    var rest := clean + TextQuery + encode(message);
    FirstQuestionMark(phone, message, encode);
    assert rest[|clean|..][..|TextQuery|] == TextQuery;
    assert rest[|clean| + |TextQuery|..] == encode(message);
  }
}
