/**
 * The outbound notifier (app/services/whatsapp_service.py): turns a
 * recipient address into the `whatsapp:+<number>` form the Twilio client
 * expects, and reports whether the client accepted the message. The
 * client itself is a parameter: `client(request)` is true when
 * `messages.create` returned and false when it raised.
 */
module WhatsAppService {
  import opened Text

  /** The transport's address scheme. */
  const Scheme: string := "whatsapp:"

  /** `phone`, with a `+` put in front unless it already starts with one. */
  function EnsurePlus(phone: string): (r: string)
    ensures "+" <= r
    ensures "+" <= phone ==> r == phone
    ensures !("+" <= phone) ==> r[1..] == phone
  {
    if "+" <= phone then phone else "+" + phone
  }

  /** `validate_phone_number`: remove every `whatsapp:` and make sure of a leading `+`. */
  function ValidatePhoneNumber(phone: string): (r: string)
    ensures "+" <= r
    ensures |r| <= |phone| + 1
  {
    EnsurePlus(RemoveAll(phone, Scheme))
  }

  /** A number that already has its `+` and no scheme is returned as it is. */
  lemma ValidateUnchanged(phone: string)
    requires "+" <= phone && !Contains(phone, Scheme)
    ensures ValidatePhoneNumber(phone) == phone
  {
    RemoveAllAbsent(phone, Scheme);
  }

  /** A number without a scheme and without a `+` just gains the `+`. */
  lemma ValidateAddsPlus(digits: string)
    requires !Contains(digits, Scheme) && !("+" <= digits)
    ensures ValidatePhoneNumber(digits) == "+" + digits
  {
    RemoveAllAbsent(digits, Scheme);
  }

  /** A scheme in front of the number is removed. */
  lemma ValidateDropsScheme(number: string)
    requires "+" <= number && !Contains(number, Scheme)
    ensures ValidatePhoneNumber(Scheme + number) == number
  {
    RemoveAllLeading(Scheme, number);
    RemoveAllAbsent(number, Scheme);
  }

  lemma ValidateExamples()
    ensures ValidatePhoneNumber("whatsapp:+123") == "+123"
    ensures ValidatePhoneNumber("123") == "+123"
    ensures ValidatePhoneNumber("+123") == "+123"
  {
    TooShortToContain("+123", Scheme);
    TooShortToContain("123", Scheme);
    assert Scheme + "+123" == "whatsapp:+123";
    ValidateDropsScheme("+123");
    ValidateUnchanged("+123");
  }

  /** Removing the inner scheme of `whatswhatsapp:app:` joins its pieces into a new one. */
  lemma CraftedInputKeepsScheme()
    ensures RemoveAll("whatswhatsapp:app:", Scheme) == Scheme
  {
    var tail := Scheme + "app:";
    var s := "whats" + tail;
    CraftedPieces(tail, s);
    assert "whatswhatsapp:app:" == s;
  }

  lemma CraftedPieces(tail: string, s: string)
    requires tail == Scheme + "app:" && s == "whats" + tail
    ensures RemoveAll(s, Scheme) == Scheme
  {
    var rest := "hats" + tail;
    assert RemoveAll(tail, Scheme) == "app:" by {
      RemoveAllLeading(Scheme, "app:");
      TooShortToContain("app:", Scheme);
    }
    assert RemoveAll(rest, Scheme) == "hats" + "app:" by {
      RemoveAllKeepsHead("hats", tail, Scheme);
    }
    assert RemoveAll(s, Scheme) == "w" + ("hats" + "app:") by {
      assert s[5] != Scheme[5];
      RemoveAllKeeps(s, Scheme);
      assert s[1..] == rest;
    }
    assert "w" + ("hats" + "app:") == Scheme;
  }

  /**
   * `replace` is not a prefix removal and is not applied until nothing is
   * left: the crafted input still carries the scheme after normalisation,
   * and normalising it a second time changes it again.
   */
  lemma ValidateMayKeepScheme()
    ensures ValidatePhoneNumber("whatswhatsapp:app:") == "+whatsapp:"
    ensures Contains(ValidatePhoneNumber("whatswhatsapp:app:"), Scheme)
    ensures ValidatePhoneNumber(ValidatePhoneNumber("whatswhatsapp:app:")) == "+"
  {
    CraftedInputKeepsScheme();
    PlusSchemeReduces();
    assert !("+" <= Scheme);
    assert ValidatePhoneNumber("whatswhatsapp:app:") == "+" + Scheme + "";
    ContainsPiece("+", Scheme, "");
    assert "+" + Scheme + "" == "+whatsapp:";
  }

  lemma PlusSchemeReduces()
    ensures RemoveAll("+whatsapp:", Scheme) == "+"
    ensures ValidatePhoneNumber("+whatsapp:") == "+"
  {
    assert "+whatsapp:" == "+" + Scheme;
    RemoveAllLeading(Scheme, "");
    RemoveAllKeepsHead("+", Scheme, Scheme);
  }

  /** What `send_message` hands to `client.messages.create`. */
  datatype MessageRequest = MessageRequest(body: string, sender: string, to: string)

  /** The request made and whether the client accepted it (`send_message`'s return value). */
  datatype Delivery = Delivery(request: MessageRequest, sent: bool)

  /**
   * The `to` address of `send_message`: the scheme is removed only when the
   * input starts with it (and then by `replace`, so everywhere), a `+` is
   * ensured, and the scheme is put back in front.
   */
  function RecipientAddress(toPhone: string): (r: string)
    ensures Scheme <= r && |r| > |Scheme| && r[|Scheme|] == '+'
  {
    var number := if Scheme <= toPhone then RemoveAll(toPhone, Scheme) else toPhone;
    Scheme + EnsurePlus(number)
  }

  /** For an address that starts with the scheme, the recipient is the validated number, re-wrapped. */
  lemma RecipientMatchesValidate(toPhone: string)
    requires Scheme <= toPhone
    ensures RecipientAddress(toPhone) == Scheme + ValidatePhoneNumber(toPhone)
  {
  }

  /**
   * Without the scheme in front, an inner `whatsapp:` is kept: here the two
   * normalisations of the same input part ways.
   */
  lemma RecipientDiffersFromValidate()
    ensures RecipientAddress("+1whatsapp:2") == Scheme + "+1whatsapp:2"
    ensures ValidatePhoneNumber("+1whatsapp:2") == "+12"
  {
    var input := "+1whatsapp:2";
    assert input == "+1" + (Scheme + "2");
    RemoveAllKeepsHead("+1", Scheme + "2", Scheme);
    RemoveAllLeading(Scheme, "2");
    TooShortToContain("2", Scheme);
  }

  /**
   * `send_message`: the body is passed unchanged, the sender is the
   * configured number, the recipient is normalised, and the result is true
   * exactly when the client accepted the request (an exception becomes false).
   */
  function SendMessage(client: MessageRequest -> bool, fromNumber: string, toPhone: string, message: string): (d: Delivery)
    ensures d.request.body == message
    ensures d.request.sender == fromNumber
    ensures d.request.to == RecipientAddress(toPhone)
    ensures d.sent <==> client(d.request)
  {
    var request := MessageRequest(message, fromNumber, RecipientAddress(toPhone));
    Delivery(request, client(request))
  }
}
