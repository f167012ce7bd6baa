/** Display helpers with logic of their own: the phone formatter and the
    status and role colour lookups. */
module Formatters {
  import opened Json
  import opened Text
  import opened Constants

  const Gray := "text-gray-600 bg-gray-50"

  const StatusColors: map<string, string> := map[
    "available" := "text-success-600 bg-success-50",
    "under-negotiation" := "text-warning-600 bg-warning-50",
    "sold" := "text-error-600 bg-error-50",
    "rented" := "text-primary-600 bg-primary-50"]

  const RoleColors: map<string, string> := map[
    "admin" := "text-accent-600 bg-accent-50",
    "member" := "text-primary-600 bg-primary-50",
    "sub-member" := "text-secondary-600 bg-secondary-50"]

  /** `colors[key] || gray`. */
  function ColorOf(colors: map<string, string>, key: string): (c: string)
    ensures key in colors && colors[key] != "" ==> c == colors[key]
    ensures key !in colors ==> c == Gray
  {
    if key in colors && colors[key] != "" then colors[key] else Gray
  }

  function StatusColor(status: string): string {
    ColorOf(StatusColors, status)
  }

  function RoleColor(role: string): string {
    ColorOf(RoleColors, role)
  }

  /** Every status of the status table has its own colour, none of them gray,
      and any other status is gray. */
  lemma StatusColorsCoverStatuses(other: string)
    requires forall s :: s in PropertyStatuses ==> s.id != other
    ensures forall s :: s in PropertyStatuses ==> StatusColor(s.id) != Gray
    ensures forall i, j :: 0 <= i < j < |PropertyStatuses| ==>
      StatusColor(PropertyStatuses[i].id) != StatusColor(PropertyStatuses[j].id)
    ensures StatusColor(other) == Gray
  {
    assert PropertyStatuses[0].id == "available" && PropertyStatuses[1].id == "under-negotiation";
    assert PropertyStatuses[2].id == "sold" && PropertyStatuses[3].id == "rented";
  }

  /** Every role of the role table has its own colour, none of them gray,
      and any other role is gray. */
  lemma RoleColorsCoverRoles(other: string)
    requires forall r :: r in UserRoles ==> r.id != other
    ensures forall r :: r in UserRoles ==> RoleColor(r.id) != Gray
    ensures forall i, j :: 0 <= i < j < |UserRoles| ==> RoleColor(UserRoles[i].id) != RoleColor(UserRoles[j].id)
    ensures RoleColor(other) == Gray
  {
    assert UserRoles[0].id == "admin" && UserRoles[1].id == "member" && UserRoles[2].id == "sub-member";
  }

  /** `formatPhone`: "" for a missing or empty number; a number with exactly
      ten digits becomes `+91 ddddd ddddd`; anything else is returned as given. */
  function FormatPhone(phone: Option<string>): string {
    if phone.None? || phone.value == "" then ""
    else
      var digits := Digits(phone.value);
      if |digits| == 10 then "+91 " + digits[..5] + " " + digits[5..] else phone.value
  }

  lemma CountryCodeDigits()
    ensures Digits("+91 ") == "91" && Digits(" ") == ""
  {
    assert " "[1..] == "";
    assert Digits("1 ") == "1" by {
      assert "1 "[1..] == " ";
    }
    assert Digits("91 ") == "91" by {
      assert "91 "[1..] == "1 ";
    }
    assert "+91 "[1..] == "91 ";
  }

  /** The digits of a prefix, five digits, a separator and five digits. */
  lemma {:induction false} JoinedDigits(prefix: string, d1: string, sep: string, d2: string)
    requires forall i :: 0 <= i < |d1| ==> IsDigit(d1[i])
    requires forall i :: 0 <= i < |d2| ==> IsDigit(d2[i])
    requires Digits(sep) == ""
    ensures Digits(prefix + d1 + sep + d2) == Digits(prefix) + d1 + d2
  {
    assert prefix + d1 + sep + d2 == (prefix + d1) + (sep + d2);
    DigitsAppend(prefix + d1, sep + d2);
    DigitsAppend(prefix, d1);
    DigitsAppend(sep, d2);
    DigitsOfDigits(d1);
    DigitsOfDigits(d2);
  }

  /** A ten-digit number is shown as the country code, a space, the first
      five digits, a space and the last five: the same digits after "91". */
  lemma FormatTenDigits(phone: string)
    requires |Digits(phone)| == 10
    ensures var r := FormatPhone(Some(phone));
      |r| == 15 && r[..4] == "+91 " && r[9] == ' ' && Digits(r) == "91" + Digits(phone)
  {
    var d := Digits(phone);
    CountryCodeDigits();
    JoinedDigits("+91 ", d[..5], " ", d[5..]);
    assert d[..5] + d[5..] == d;
  }

  /** Formatting a formatted number changes nothing: the result of a
      ten-digit number has twelve digits. */
  lemma FormatPhoneIdempotent(phone: Option<string>)
    ensures FormatPhone(Some(FormatPhone(phone))) == FormatPhone(phone)
  {
    if phone.Some? && phone.value != "" && |Digits(phone.value)| == 10 {
      FormatTenDigits(phone.value);
    }
  }

  /** Numbers without exactly ten digits are shown unchanged. */
  lemma OtherNumbersUnchanged(phone: string)
    requires |Digits(phone)| != 10
    ensures FormatPhone(Some(phone)) == phone
  {
  }
}
