/** Validating a checkout request: what a request must satisfy before it reaches the repository. */
module ShopRequest {
  import opened Text
  import opened Money
  import opened ShopTables

  function TrimLines(lines: seq<CartLine>): (r: seq<CartLine>)
    ensures |r| == |lines| && forall n :: 0 <= n < |lines| ==>
      r[n] == CartLine(TrimSpace(lines[n].id), lines[n].quantity)
  {
    seq(|lines|, n requires 0 <= n < |lines| => CartLine(TrimSpace(lines[n].id), lines[n].quantity))
  }

  datatype RequestError =
    | NoItems | TooManyItems | ItemWithoutId | DuplicateItem(id: string) | QuantityTooSmall | QuantityTooLarge
    | FieldMissing(field: FieldName) | FieldTooLong(field: FieldName)

  datatype FieldName =
    | RecipientName | Email | AddressLine1 | AddressLine2 | City | StateName | PostalCode | Country | IdempotencyKey

  datatype Field = Field(name: FieldName, value: string)

  /** Line `n` is not fit to order, and `e` says why; the lines before it are fit. */
  ghost predicate FirstBad(lines: seq<CartLine>, n: int, e: RequestError) {
    && 0 <= n < |lines| && GoodLines(lines, n)
    && match e
       case ItemWithoutId => lines[n].id == ""
       case DuplicateItem(id) => id == lines[n].id != "" && exists m :: 0 <= m < n && lines[m].id == id
       case QuantityTooSmall => lines[n].quantity < 1
       case QuantityTooLarge => lines[n].quantity > 1000
       case _ => false
  }

  ghost function Ids(lines: seq<CartLine>, i: nat): set<string>
    requires i <= |lines|
  {
    set n | 0 <= n < i :: lines[n].id
  }

  /** The first `i` lines have an id, no id twice, and quantities in range. */
  ghost predicate GoodLines(lines: seq<CartLine>, i: nat)
    requires i <= |lines|
  {
    i == 0 ||
    (GoodLines(lines, i - 1) && lines[i - 1].id != "" && lines[i - 1].id !in Ids(lines, i - 1)
     && 1 <= lines[i - 1].quantity <= MAX_QUANTITY)
  }

  lemma {:induction false} BadLineAt(lines: seq<CartLine>, i: nat, n: nat)
    requires i < n <= |lines| && !GoodLines(lines, i + 1)
    ensures !GoodLines(lines, n)
  {
    if i + 1 < n { BadLineAt(lines, i, n - 1); }
  }

  /** One bad line makes the whole list bad. */
  lemma BadLine(lines: seq<CartLine>, i: nat)
    requires i < |lines|
    ensures !GoodLines(lines, i + 1) ==> !GoodLines(lines, |lines|)
  {
    if !GoodLines(lines, i + 1) { BadLineAt(lines, i, |lines|); }
  }

  lemma NextLine(lines: seq<CartLine>, i: nat)
    requires i < |lines| && GoodLines(lines, i)
    ensures Ids(lines, i + 1) == Ids(lines, i) + {lines[i].id}
    ensures GoodLines(lines, i + 1) <==>
      lines[i].id != "" && lines[i].id !in Ids(lines, i) && 1 <= lines[i].quantity <= MAX_QUANTITY
  {}

  lemma {:induction false} GoodLinesAre(lines: seq<CartLine>, i: nat)
    requires i <= |lines|
    ensures GoodLines(lines, i) <==>
      && (forall n :: 0 <= n < i ==> lines[n].id != "" && 1 <= lines[n].quantity <= MAX_QUANTITY)
      && (forall m, n :: 0 <= m < n < i ==> lines[m].id != lines[n].id)
  {
    if i == 0 {
    } else {
      GoodLinesAre(lines, i - 1);
      assert forall m :: 0 <= m < i - 1 ==> lines[m].id in Ids(lines, i - 1);
    }
  }

  /** The loop's bookkeeping decides exactly whether the lines form a valid cart. */
  lemma GoodLinesAreValid(lines: seq<CartLine>)
    ensures 1 <= |lines| <= MAX_LINES ==>
      (GoodLines(lines, |lines|) <==> ValidCart(lines) && forall n :: 0 <= n < |lines| ==> lines[n].id != "")
  {
    GoodLinesAre(lines, |lines|);
  }

  predicate Short(value: string) { Utf8Length(value) <= MAX_FIELD_LENGTH }

  predicate IsRequired(name: FieldName) {
    name.RecipientName? || name.Email? || name.AddressLine1? || name.City? || name.Country?
  }

  /** Up to 50 lines with ids, no id twice once trimmed, quantities from 1 to 1000. */
  predicate Orderable(lines: seq<CartLine>) {
    && 1 <= |lines| <= 50
    && (forall n :: 0 <= n < |lines| ==> TrimSpace(lines[n].id) != "" && 1 <= lines[n].quantity <= 1000)
    && (forall m, n :: 0 <= m < n < |lines| ==> TrimSpace(lines[m].id) != TrimSpace(lines[n].id))
  }

  lemma GoodLinesMean(lines: seq<CartLine>)
    ensures 1 <= |lines| <= 50 ==> (GoodLines(TrimLines(lines), |lines|) <==> Orderable(lines))
  {
    var clean := TrimLines(lines);
    GoodLinesAreValid(clean);
    assert forall n :: 0 <= n < |lines| ==> clean[n].id == TrimSpace(lines[n].id);
    if ValidCart(clean) {
      forall m, n | 0 <= m < n < |lines| ensures TrimSpace(lines[m].id) != TrimSpace(lines[n].id) {
        assert clean[m].id != clean[n].id;
      }
      forall n | 0 <= n < |lines| ensures 1 <= lines[n].quantity <= 1000 { assert clean[n].quantity >= 1; }
    }
  }

  predicate Alphanumeric(c: char) { c in "0123456789" || c in UPPER_LETTERS || c in LOWER_LETTERS }

  lemma AlphanumericRange(c: char)
    ensures '0' <= c <= '9' || 'a' <= c <= 'z' || 'A' <= c <= 'Z' <==> Alphanumeric(c)
  {
    UpperLetters(c);
    LowerLetters(c);
    if '0' <= c <= '9' { assert c == "0123456789"[c as int - 48]; }
  }

  /** A hash is safe exactly when it consists of digits and letters. */
  lemma HashSafeMeans(hash: string)
    ensures HashSafe(hash) <==> forall c :: c in hash ==> Alphanumeric(c)
  {
    forall c ensures '0' <= c <= '9' || 'a' <= c <= 'z' || 'A' <= c <= 'Z' <==> Alphanumeric(c) {
      AlphanumericRange(c);
    }
    if forall c :: c in hash ==> Alphanumeric(c) {
      assert forall i :: 0 <= i < |hash| ==> hash[i] in hash;
    }
  }

  class CheckoutRequest {
    var idempotencyKey: string
    var eventId: string
    var recipientName: string
    var email: string
    var addressLine1: string
    var addressLine2: string
    var city: string
    var state: string
    var postalCode: string
    var country: string
    var items: seq<CartLine>

    function Required(): seq<Field>
      reads this
    {
      [Field(RecipientName, recipientName), Field(Email, email),
       Field(AddressLine1, addressLine1), Field(City, city), Field(Country, country)]
    }

    function Bounded(): seq<Field>
      reads this
    {
      [Field(RecipientName, recipientName), Field(Email, email),
       Field(AddressLine1, addressLine1), Field(AddressLine2, addressLine2),
       Field(City, city), Field(StateName, state), Field(PostalCode, postalCode),
       Field(Country, country), Field(IdempotencyKey, idempotencyKey)]
    }

    /** The value of the field with this name. */
    /** The value of the field with this name. */
    function Named(name: FieldName): string
      reads this
    {
      match name
      case RecipientName => recipientName
      case Email => email
      case AddressLine1 => addressLine1
      case AddressLine2 => addressLine2
      case City => city
      case StateName => state
      case PostalCode => postalCode
      case Country => country
      case IdempotencyKey => idempotencyKey
    }

    method TrimContact()
      modifies `idempotencyKey, `eventId, `recipientName, `email
      ensures idempotencyKey == TrimSpace(old(idempotencyKey)) && eventId == TrimSpace(old(eventId))
      ensures recipientName == TrimSpace(old(recipientName)) && email == TrimSpace(old(email))
    {
      idempotencyKey, eventId := TrimSpace(idempotencyKey), TrimSpace(eventId);
      recipientName, email := TrimSpace(recipientName), TrimSpace(email);
    }

    method TrimAddress()
      modifies `addressLine1, `addressLine2, `city, `state, `postalCode, `country
      ensures addressLine1 == TrimSpace(old(addressLine1)) && addressLine2 == TrimSpace(old(addressLine2))
      ensures city == TrimSpace(old(city)) && state == TrimSpace(old(state))
      ensures postalCode == TrimSpace(old(postalCode)) && country == TrimSpace(old(country))
    {
      addressLine1, addressLine2 := TrimSpace(addressLine1), TrimSpace(addressLine2);
      city, state := TrimSpace(city), TrimSpace(state);
      postalCode, country := TrimSpace(postalCode), TrimSpace(country);
    }

    /** Trims every text field in place. */
    method TrimFields()
      modifies this
      ensures items == old(items)
      ensures idempotencyKey == TrimSpace(old(idempotencyKey)) && eventId == TrimSpace(old(eventId))
      ensures recipientName == TrimSpace(old(recipientName)) && email == TrimSpace(old(email))
      ensures addressLine1 == TrimSpace(old(addressLine1)) && addressLine2 == TrimSpace(old(addressLine2))
      ensures city == TrimSpace(old(city)) && state == TrimSpace(old(state))
      ensures postalCode == TrimSpace(old(postalCode)) && country == TrimSpace(old(country))
    {
      TrimContact();
      TrimAddress();
    }

    method CheckLine(line: CartLine, seen: set<string>) returns (trimmed: CartLine, err: Option<RequestError>)
      ensures trimmed == CartLine(TrimSpace(line.id), line.quantity)
      ensures err.None? <==> trimmed.id != "" && trimmed.id !in seen && 1 <= line.quantity <= MAX_QUANTITY
      ensures err.Some? ==> match err.value
        case ItemWithoutId => trimmed.id == ""
        case DuplicateItem(id) => id == trimmed.id != "" && id in seen
        case QuantityTooSmall => line.quantity < 1
        case QuantityTooLarge => line.quantity > 1000
        case _ => false
    {
      trimmed, err := line.(id := TrimSpace(line.id)), None;
      if trimmed.id == "" {
        err := Some(ItemWithoutId);
      } else if trimmed.id in seen {
        err := Some(DuplicateItem(trimmed.id));
      } else if line.quantity < 1 {
        err := Some(QuantityTooSmall);
      } else if line.quantity > MAX_QUANTITY {
        err := Some(QuantityTooLarge);
      }
    }

    /** The item loop: trims each id in place and stops at the first bad line. */
    method CheckItems() returns (err: Option<RequestError>)
      requires 1 <= |items| <= MAX_LINES
      modifies this`items
      ensures err.None? <==> GoodLines(TrimLines(old(items)), |old(items)|)
      ensures err.None? ==> items == TrimLines(old(items))
      ensures err.Some? ==> exists n :: FirstBad(TrimLines(old(items)), n, err.value)
      ensures |items| == |old(items)|
      ensures forall n :: 0 <= n < |items| ==> items[n] == old(items)[n] || items[n] == TrimLines(old(items))[n]
    {
      ghost var clean := TrimLines(items);
      var seen: set<string> := {};
      var i := 0;
      while i < |items|
        invariant 0 <= i <= |items| == |clean|
        invariant forall n :: 0 <= n < i ==> items[n] == clean[n]
        invariant forall n :: i <= n < |items| ==> items[n] == old(items)[n]
        invariant seen == Ids(clean, i)
        invariant GoodLines(clean, i)
      {
        var trimmed, fault := CheckLine(items[i], seen);
        assert trimmed == clean[i];
        NextLine(clean, i);
        BadLine(clean, i);
        items := items[i := trimmed];
        if fault.Some? {
          assert FirstBad(clean, i, fault.value);
          return fault;
        }
        seen := seen + {trimmed.id};
        i := i + 1;
      }
      err := None;
    }

    method CheckRequired() returns (err: Option<RequestError>)
      ensures err.None? <==>
        recipientName != "" && email != "" && addressLine1 != "" && city != "" && country != ""
      ensures err.Some? ==> err.value.FieldMissing? && IsRequired(err.value.field) && Named(err.value.field) == ""
    {
      var required := Required();
      for n := 0 to |required|
        invariant forall m :: 0 <= m < n ==> required[m].value != ""
      {
        if required[n].value == "" { return Some(FieldMissing(required[n].name)); }
      }
      assert required[0].value != "" && required[1].value != "" && required[2].value != "";
      assert required[3].value != "" && required[4].value != "";
      err := None;
    }

    method CheckBounded() returns (err: Option<RequestError>)
      ensures err.None? <==>
        && Short(recipientName) && Short(email) && Short(addressLine1) && Short(addressLine2) && Short(city)
        && Short(state) && Short(postalCode) && Short(country) && Short(idempotencyKey)
      ensures err.Some? ==> err.value.FieldTooLong? && !Short(Named(err.value.field))
    {
      var bounded := Bounded();
      for n := 0 to |bounded|
        invariant forall m :: 0 <= m < n ==> Short(bounded[m].value)
      {
        if !Short(bounded[n].value) { return Some(FieldTooLong(bounded[n].name)); }
      }
      assert bounded[0].value == recipientName && bounded[1].value == email && bounded[2].value == addressLine1;
      assert bounded[3].value == addressLine2 && bounded[4].value == city && bounded[5].value == state;
      assert bounded[6].value == postalCode && bounded[7].value == country && bounded[8].value == idempotencyKey;
      err := None;
    }

    /** No required field is blank and none of the fields longer than 255 bytes; otherwise one that is, is named. */
    method CheckFields() returns (err: Option<RequestError>)
      ensures err.None? <==>
        && recipientName != "" && email != "" && addressLine1 != "" && city != "" && country != ""
        && Utf8Length(recipientName) <= 255 && Utf8Length(email) <= 255 && Utf8Length(addressLine1) <= 255
        && Utf8Length(addressLine2) <= 255 && Utf8Length(city) <= 255 && Utf8Length(state) <= 255
        && Utf8Length(postalCode) <= 255 && Utf8Length(country) <= 255 && Utf8Length(idempotencyKey) <= 255
      ensures err.Some? ==> match err.value
        case FieldMissing(name) => IsRequired(name) && Named(name) == ""
        case FieldTooLong(name) => Utf8Length(Named(name)) > 255
        case _ => false
    {
      err := CheckRequired();
      if err.None? {
        err := CheckBounded();
      }
    }

    /**
     * Validate accepts exactly the requests whose trimmed lines form a valid cart and whose
     * trimmed fields are present and short enough, and an accepted request has been trimmed.
     */
    method Validate() returns (err: Option<RequestError>)
      modifies this
      ensures idempotencyKey == TrimSpace(old(idempotencyKey)) && eventId == TrimSpace(old(eventId))
      ensures recipientName == TrimSpace(old(recipientName)) && email == TrimSpace(old(email))
      ensures addressLine1 == TrimSpace(old(addressLine1)) && addressLine2 == TrimSpace(old(addressLine2))
      ensures city == TrimSpace(old(city)) && state == TrimSpace(old(state))
      ensures postalCode == TrimSpace(old(postalCode)) && country == TrimSpace(old(country))
      ensures err.None? <==>
        && Orderable(old(items))
        && recipientName != "" && email != "" && addressLine1 != "" && city != "" && country != ""
        && Utf8Length(recipientName) <= 255 && Utf8Length(email) <= 255 && Utf8Length(addressLine1) <= 255
        && Utf8Length(addressLine2) <= 255 && Utf8Length(city) <= 255 && Utf8Length(state) <= 255
        && Utf8Length(postalCode) <= 255 && Utf8Length(country) <= 255 && Utf8Length(idempotencyKey) <= 255
      ensures err.Some? ==> match err.value
        case NoItems => old(items) == []
        case TooManyItems => |old(items)| > 50
        case FieldMissing(name) => IsRequired(name) && Named(name) == ""
        case FieldTooLong(name) => Utf8Length(Named(name)) > 255
        case e => exists n :: FirstBad(TrimLines(old(items)), n, e)
      ensures err.None? ==> items == TrimLines(old(items))
    {
      TrimFields();
      GoodLinesMean(items);
      if |items| == 0 {
        return Some(NoItems);
      }
      if |items| > MAX_LINES {
        return Some(TooManyItems);
      }
      err := CheckItems();
      if err.None? {
        err := CheckFields();
      }
    }
  }

  datatype ConfirmError = OrderIdMissing | OrderIdTooLong | HashMissing | HashTooLong | HashNotAlphanumeric

  class CheckoutConfirmRequest {
    var orderId: string
    var transactionHash: string

    /** The rune loop of isHashSafe. */
    method IsHashSafe(s: string) returns (safe: bool)
      ensures safe == HashSafe(s)
    {
      for i := 0 to |s|
        invariant HashSafe(s[..i])
      {
        var r := s[i];
        if !('0' <= r <= '9' || 'a' <= r <= 'z' || 'A' <= r <= 'Z') { return false; }
        assert s[..i + 1] == s[..i] + [r];
      }
      assert s[..|s|] == s;
      safe := true;
    }

    /** Accepts exactly the requests whose trimmed fields a confirmation may start from, trimming in place. */
    method Validate() returns (err: Option<ConfirmError>)
      modifies this
      ensures orderId == TrimSpace(old(orderId)) && transactionHash == TrimSpace(old(transactionHash))
      ensures err.None? <==> ValidConfirm(orderId, transactionHash)
      ensures err.None? <==>
        && orderId != "" && Utf8Length(orderId) <= 255 && transactionHash != "" && Utf8Length(transactionHash) <= 128
        && forall c :: c in transactionHash ==> Alphanumeric(c)
      ensures err.Some? ==> match err.value
        case OrderIdMissing => orderId == ""
        case OrderIdTooLong => Utf8Length(orderId) > 255
        case HashMissing => transactionHash == ""
        case HashTooLong => Utf8Length(transactionHash) > 128
        case HashNotAlphanumeric => exists c :: c in transactionHash && !Alphanumeric(c)
    {
      orderId, transactionHash := TrimSpace(orderId), TrimSpace(transactionHash);
      if orderId == "" { return Some(OrderIdMissing); }
      if Utf8Length(orderId) > MAX_FIELD_LENGTH { return Some(OrderIdTooLong); }
      if transactionHash == "" { return Some(HashMissing); }
      if Utf8Length(transactionHash) > MAX_HASH_LENGTH { return Some(HashTooLong); }
      HashSafeMeans(transactionHash);
      var safe := IsHashSafe(transactionHash);
      err := if safe then None else Some(HashNotAlphanumeric);
    }
  }
}
