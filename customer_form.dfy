/** The check of the new-customer form: the trimmed name must have at least
    two characters and the trimmed phone at least ten, and the first stored
    customer (soft-deleted ones included) whose lower-cased name or whose
    phone matches the input makes the matching fields duplicates. */
module CustomerForm {
  import opened LedgerTypes
  import opened SeqUtils

  /** The characters `String.prototype.trim` removes: the white space and
      line terminators of ECMAScript, the `Zs` space separators included. */
  predicate IsSpace(c: char)
  {
    || c == '\t' || c == '\n' || c == '\U{000B}' || c == '\U{000C}' || c == '\r'
    || c == ' ' || c == '\U{00A0}' || c == '\U{1680}'
    || ('\U{2000}' <= c <= '\U{200A}')
    || c == '\U{2028}' || c == '\U{2029}' || c == '\U{202F}' || c == '\U{205F}'
    || c == '\U{3000}' || c == '\U{FEFF}'
  }

  /** `s` without its leading white space. */
  function TrimStart(s: string): (r: string)
    ensures |r| <= |s| && r == s[|s| - |r|..]
    ensures forall i :: 0 <= i < |s| - |r| ==> IsSpace(s[i])
    ensures |r| > 0 ==> !IsSpace(r[0])
  {
    if |s| > 0 && IsSpace(s[0]) then TrimStart(s[1..]) else s
  }

  /** `s` without its trailing white space. */
  function TrimEnd(s: string): (r: string)
    ensures |r| <= |s| && r == s[..|r|]
    ensures forall i :: |r| <= i < |s| ==> IsSpace(s[i])
    ensures |r| > 0 ==> !IsSpace(r[|r| - 1])
  {
    if |s| > 0 && IsSpace(s[|s| - 1]) then TrimEnd(s[..|s| - 1]) else s
  }

  /** The number of white-space characters `s` starts with. */
  function LeadingSpaces(s: string): (n: nat)
    ensures n <= |s|
    ensures forall i :: 0 <= i < n ==> IsSpace(s[i])
    ensures n < |s| ==> !IsSpace(s[n])
  {
    |s| - |TrimStart(s)|
  }

  /** `s.trim()`: the part of `s` between its leading and trailing white
      space; empty exactly when `s` is all white space. */
  function Trim(s: string): (r: string)
    ensures |r| <= |s|
    ensures |r| > 0 ==> !IsSpace(r[0]) && !IsSpace(r[|r| - 1])
    ensures |r| == 0 <==> forall i :: 0 <= i < |s| ==> IsSpace(s[i])
  {
    var t := TrimStart(s);
    var r := TrimEnd(t);
    assert |r| == 0 ==> |t| == 0;
    r
  }

  /** The trimmed string is the slice of `s` that starts after its leading
      white space, and everything after that slice is white space. */
  lemma TrimIsMiddle(s: string)
    ensures LeadingSpaces(s) + |Trim(s)| <= |s|
    ensures Trim(s) == s[LeadingSpaces(s)..LeadingSpaces(s) + |Trim(s)|]
    ensures forall i :: LeadingSpaces(s) + |Trim(s)| <= i < |s| ==> IsSpace(s[i])
  {
    SliceOfSuffix(s, TrimStart(s), Trim(s), LeadingSpaces(s), IsSpace);
  }

  /** Trimming a trimmed string changes nothing. */
  lemma TrimIdempotent(s: string)
    ensures Trim(Trim(s)) == Trim(s)
  {
    var r := Trim(s);
    assert TrimStart(r) == r;
    assert TrimEnd(r) == r;
  }

  /** The lower case of an ASCII capital letter; every other character is
      its own lower case. */
  function LowerChar(c: char): (l: char)
  {
    if 'A' <= c <= 'Z' then (c as int + 32) as char else c
  }

  /** `s.toLowerCase()` on the ASCII letters. */
  function Lower(s: string): (r: string)
    ensures |r| == |s|
    ensures forall i :: 0 <= i < |s| ==> r[i] == LowerChar(s[i])
  {
    seq(|s|, i requires 0 <= i < |s| => LowerChar(s[i]))
  }

  /** Lower-casing twice is lower-casing once, and a string without capital
      letters (an Arabic name, say) is its own lower case. */
  lemma LowerMeaning(s: string)
    ensures Lower(Lower(s)) == Lower(s)
    ensures (forall i :: 0 <= i < |s| ==> !('A' <= s[i] <= 'Z')) ==> Lower(s) == s
    ensures forall i :: 0 <= i < |s| ==> !('A' <= Lower(s)[i] <= 'Z')
  {
  }

  /** The error shown under the name field. */
  datatype NameError = NameRequired | NameTooShort | NameTaken

  /** The error shown under the phone field. */
  datatype PhoneError = PhoneRequired | PhoneTooShort | PhoneTaken

  /** The errors of the form; a field without an error is `None`. */
  datatype FormErrors = FormErrors(name: Option<NameError>, phone: Option<PhoneError>)

  const NO_ERRORS: FormErrors := FormErrors(None, None)

  function NameMessage(e: NameError): string
  {
    match e
    case NameRequired => "اسم العميل مطلوب"
    case NameTooShort => "اسم العميل يجب أن يكون حرفين على الأقل"
    case NameTaken => "عميل بهذا الاسم موجود مسبقاً"
  }

  function PhoneMessage(e: PhoneError): string
  {
    match e
    case PhoneRequired => "رقم الهاتف مطلوب"
    case PhoneTooShort => "رقم الهاتف يجب أن يكون 10 أرقام على الأقل"
    case PhoneTaken => "عميل بهذا الرقم موجود مسبقاً"
  }

  /** The format check of the name: required, then at least two characters
      once trimmed. */
  function NameFormatError(name: string): (e: Option<NameError>)
    ensures e == None <==> |Trim(name)| >= 2
    ensures e == Some(NameRequired) <==> forall i :: 0 <= i < |name| ==> IsSpace(name[i])
    ensures e != Some(NameTaken)
  {
    var t := Trim(name);
    if |t| == 0 then Some(NameRequired)
    else if |t| < 2 then Some(NameTooShort)
    else None
  }

  /** The format check of the phone: required, then at least ten characters
      once trimmed. */
  function PhoneFormatError(phone: string): (e: Option<PhoneError>)
    ensures e == None <==> |Trim(phone)| >= 10
    ensures e == Some(PhoneRequired) <==> forall i :: 0 <= i < |phone| ==> IsSpace(phone[i])
    ensures e != Some(PhoneTaken)
  {
    var t := Trim(phone);
    if |t| == 0 then Some(PhoneRequired)
    else if |t| < 10 then Some(PhoneTooShort)
    else None
  }

  /** The stored customer has the typed name, ignoring case and the typed
      name's surrounding white space. */
  predicate SameName(c: Customer, name: string)
  {
    Lower(c.name) == Lower(Trim(name))
  }

  /** The stored customer has the typed phone, ignoring its surrounding
      white space. */
  predicate SamePhone(c: Customer, phone: string)
  {
    c.phone == Trim(phone)
  }

  /** The predicate of the duplicate search. */
  predicate Matches(c: Customer, name: string, phone: string)
  {
    SameName(c, name) || SamePhone(c, phone)
  }

  /** The errors `validateForm` sets. Only the first matching customer is
      looked at, and a duplicate error replaces the format error of its
      field. */
  function FormErrorsOf(customers: seq<Customer>, name: string, phone: string): (r: FormErrors)
    ensures (forall c :: c in customers ==> !Matches(c, name, phone)) ==>
      r == FormErrors(NameFormatError(name), PhoneFormatError(phone))
    ensures r.name != Some(NameTaken) ==> r.name == NameFormatError(name)
    ensures r.phone != Some(PhoneTaken) ==> r.phone == PhoneFormatError(phone)
  {
    var k := FirstIndex(customers, (c: Customer) => Matches(c, name, phone));
    var nameTaken := k >= 0 && SameName(customers[k], name);
    var phoneTaken := k >= 0 && SamePhone(customers[k], phone);
    FormErrors(
      if nameTaken then Some(NameTaken) else NameFormatError(name),
      if phoneTaken then Some(PhoneTaken) else PhoneFormatError(phone))
  }

  /** The customer at `k` is the first one the duplicate search finds. */
  predicate FirstMatchAt(customers: seq<Customer>, name: string, phone: string, k: int)
  {
    && 0 <= k < |customers|
    && Matches(customers[k], name, phone)
    && forall j :: 0 <= j < k ==> !Matches(customers[j], name, phone)
  }

  /** A field is a duplicate exactly when the first customer the search
      finds matches on that field; a later customer matching that field does
      not count. */
  lemma DuplicateMeaning(customers: seq<Customer>, name: string, phone: string)
    ensures FormErrorsOf(customers, name, phone).name == Some(NameTaken) <==>
      exists k :: FirstMatchAt(customers, name, phone, k) && SameName(customers[k], name)
    ensures FormErrorsOf(customers, name, phone).phone == Some(PhoneTaken) <==>
      exists k :: FirstMatchAt(customers, name, phone, k) && SamePhone(customers[k], phone)
  {
    var k := FirstIndex(customers, (c: Customer) => Matches(c, name, phone));
    if k >= 0 {
      assert FirstMatchAt(customers, name, phone, k);
      forall k' | FirstMatchAt(customers, name, phone, k') ensures k' == k {
      }
    } else {
      forall k' | 0 <= k' < |customers| ensures !FirstMatchAt(customers, name, phone, k') {
        assert !Matches(customers[k'], name, phone);
      }
    }
  }

  /** `validateForm()`: the form is accepted exactly when the trimmed name
      has two characters or more, the trimmed phone ten or more, and no
      stored customer, soft-deleted or not, has the name (ignoring case) or
      the phone. */
  function ValidateForm(customers: seq<Customer>, name: string, phone: string): (ok: bool)
    ensures ok <==> FormErrorsOf(customers, name, phone) == NO_ERRORS
    ensures ok <==>
      && |Trim(name)| >= 2
      && |Trim(phone)| >= 10
      && forall c :: c in customers ==> !Matches(c, name, phone)
  {
    MatchIsReported(customers, name, phone);
    FormErrorsOf(customers, name, phone) == NO_ERRORS
  }

  /** Some customer matching makes at least one field a duplicate: the first
      match matches by name or by phone. */
  lemma MatchIsReported(customers: seq<Customer>, name: string, phone: string)
    ensures (exists c :: c in customers && Matches(c, name, phone)) ==>
      FormErrorsOf(customers, name, phone).name == Some(NameTaken)
      || FormErrorsOf(customers, name, phone).phone == Some(PhoneTaken)
  {
    var k := FirstIndex(customers, (c: Customer) => Matches(c, name, phone));
    if k >= 0 {
      if SameName(customers[k], name) {
        assert 0 <= k < |customers| && SameName(customers[k], name)
          && forall j :: 0 <= j < k ==> !Matches(customers[j], name, phone);
      } else {
        assert 0 <= k < |customers| && SamePhone(customers[k], phone)
          && forall j :: 0 <= j < k ==> !Matches(customers[j], name, phone);
      }
    } else {
      forall c | c in customers ensures !Matches(c, name, phone) {
        var i :| 0 <= i < |customers| && customers[i] == c;
      }
    }
  }

  /** A soft-deleted customer still blocks its phone number. */
  lemma DeletedCustomerBlocksPhone(customers: seq<Customer>, c: Customer, name: string, phone: string)
    requires c in customers && Truthy(c.deletedAt) && SamePhone(c, phone)
    ensures !ValidateForm(customers, name, phone)
  {
  }

  /** Only the first match is inspected: when the first customer the search
      finds matches by phone alone, a later customer with the same name
      raises no name error. */
  lemma LaterNameMatchIgnored(customers: seq<Customer>, name: string, phone: string, k: int, later: int)
    requires FirstMatchAt(customers, name, phone, k) && !SameName(customers[k], name)
    requires k < later < |customers| && SameName(customers[later], name)
    ensures FormErrorsOf(customers, name, phone).name == NameFormatError(name)
    ensures FormErrorsOf(customers, name, phone).phone == Some(PhoneTaken)
  {
    DuplicateMeaning(customers, name, phone);
    forall k' | FirstMatchAt(customers, name, phone, k') ensures k' == k {
    }
  }

  /** A duplicate replaces a format error: when the first customer the
      search finds has the name, the name is reported as taken, whatever its
      format error would have been (a one-letter name equal to a stored one
      is taken, not too short). */
  lemma DuplicateReplacesFormatError(customers: seq<Customer>, name: string, phone: string, k: int)
    requires FirstMatchAt(customers, name, phone, k) && SameName(customers[k], name)
    ensures FormErrorsOf(customers, name, phone).name == Some(NameTaken)
    ensures FormErrorsOf(customers, name, phone).name != NameFormatError(name)
  {
    DuplicateMeaning(customers, name, phone);
  }
}
