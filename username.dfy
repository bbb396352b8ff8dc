/**
 * The validation part of the account settings screen's `checkUserName(name, alert)`: which
 * names it accepts, and for each rejected name the message it shows and where it shows it.
 * `alert` selects a dialog; otherwise the message goes to the inline check label. A missing
 * (null) name is `None`.
 */
module UserName {
  import opened Wrappers

  /** The string resources the validator shows for a rejected name. */
  datatype Message = UsernameInvalid | UsernameInvalidStartNumber | UsernameInvalidShort | UsernameInvalidLong

  /**
   * The outcome: accepted (the method returns true), rejected with a message shown in a dialog
   * or in the check label (it returns false), or a null dereference (alert mode, null name).
   */
  datatype Verdict = Accepted | Rejected(message: Message, inDialog: bool) | NullName

  predicate IsDigit(c: char) {
    '0' <= c <= '9'
  }

  /** `[0-9a-zA-Z_]`. */
  predicate AllowedChar(c: char) {
    IsDigit(c) || 'a' <= c <= 'z' || 'A' <= c <= 'Z' || c == '_'
  }

  /** The rules a username must meet, stated all at once. */
  predicate ValidUserName(s: string) {
    && 5 <= |s| <= 32
    && s[0] != '_' && s[|s| - 1] != '_'
    && !IsDigit(s[0])
    && forall i :: 0 <= i < |s| ==> AllowedChar(s[i])
  }

  /** What the character scan from index `a` on rejects the name for, if anything. */
  function Scan(s: string, a: nat): Option<Message>
    requires a <= |s|
    decreases |s| - a
  {
    if a == |s| then None
    else if a == 0 && IsDigit(s[0]) then Some(UsernameInvalidStartNumber)
    else if !AllowedChar(s[a]) then Some(UsernameInvalid)
    else Scan(s, a + 1)
  }

  /** The validator as a function of its arguments. */
  function CheckVerdict(name: Option<string>, alert: bool): Verdict {
    if alert && name.None? then NullName
    else if alert && name.value == "" then Accepted
    else if name.Some? && |name.value| > 0 && (name.value[0] == '_' || name.value[|name.value| - 1] == '_') then
      Rejected(UsernameInvalid, false)
    else if name.Some? && Scan(name.value, 0).Some? then Rejected(Scan(name.value, 0).value, alert)
    else if name.None? || |name.value| < 5 then Rejected(UsernameInvalidShort, alert)
    else if |name.value| > 32 then Rejected(UsernameInvalidLong, alert)
    else Accepted
  }

  /** The `for` scan and early returns of `checkUserName`. */
  method CheckUserName(name: Option<string>, alert: bool) returns (v: Verdict)
    ensures v == CheckVerdict(name, alert)
  {
    if alert && name.None? {
      return NullName;
    }
    if alert && |name.value| == 0 {
      return Accepted;
    }
    if name.Some? {
      var s := name.value;
      if |s| > 0 && (s[0] == '_' || s[|s| - 1] == '_') {
        return Rejected(UsernameInvalid, false);
      }
      var a := 0;
      while a < |s|
        invariant 0 <= a <= |s|
        invariant Scan(s, 0) == Scan(s, a)
      {
        var ch := s[a];
        if a == 0 && IsDigit(ch) {
          return Rejected(UsernameInvalidStartNumber, alert);
        }
        if !AllowedChar(ch) {
          return Rejected(UsernameInvalid, alert);
        }
        a := a + 1;
      }
    }
    if name.None? || |name.value| < 5 {
      return Rejected(UsernameInvalidShort, alert);
    }
    if |name.value| > 32 {
      return Rejected(UsernameInvalidLong, alert);
    }
    return Accepted;
  }

  // ---------------------------------------------------------------------------
  // What the scan finds

  /** From index `a` on, the scan passes exactly when every remaining character is allowed (and no leading digit is there to see). */
  lemma {:induction false} ScanPassesIff(s: string, a: nat)
    requires a <= |s|
    ensures Scan(s, a).None? <==>
      (a > 0 || |s| == 0 || !IsDigit(s[0])) && forall i :: a <= i < |s| ==> AllowedChar(s[i])
    decreases |s| - a
  {
    if a < |s| && !(a == 0 && IsDigit(s[0])) && AllowedChar(s[a]) {
      ScanPassesIff(s, a + 1);
    }
  }

  /** A scan that rejects has found a disallowed character, unless the name starts with a digit. */
  lemma {:induction false} ScanRejects(s: string, a: nat)
    requires a <= |s|
    ensures Scan(s, a) == Some(UsernameInvalidStartNumber) <==> a == 0 && |s| > 0 && IsDigit(s[0])
    ensures Scan(s, a) == Some(UsernameInvalid) <==>
      !(a == 0 && |s| > 0 && IsDigit(s[0])) && exists i :: a <= i < |s| && !AllowedChar(s[i])
    decreases |s| - a
  {
    if a < |s| && !(a == 0 && IsDigit(s[0])) {
      if AllowedChar(s[a]) {
        ScanRejects(s, a + 1);
      }
    }
  }

  // ---------------------------------------------------------------------------
  // The rules, one by one

  /** Exactly the names meeting every rule are accepted, plus the empty name in alert mode. */
  lemma AcceptedIff(name: Option<string>, alert: bool)
    ensures CheckVerdict(name, alert) == Accepted <==>
      (alert && name == Some("")) || (name.Some? && ValidUserName(name.value))
  {
    if name.Some? {
      ScanPassesIff(name.value, 0);
    }
  }

  /** A null name is dereferenced only in alert mode; otherwise it is too short. */
  lemma NullNameRule(alert: bool)
    ensures CheckVerdict(None, alert) == if alert then NullName else Rejected(UsernameInvalidShort, false)
  {
  }

  /**
   * A leading or trailing underscore is reported before the character scan, always in the check
   * label, even in alert mode.
   */
  lemma UnderscoreRule(s: string, alert: bool)
    requires |s| > 0 && (s[0] == '_' || s[|s| - 1] == '_')
    ensures CheckVerdict(Some(s), alert) == Rejected(UsernameInvalid, false)
  {
  }

  /** A leading digit is the scan's first finding, whatever follows it. */
  lemma LeadingDigitRule(s: string, alert: bool)
    requires |s| > 0 && IsDigit(s[0]) && s[|s| - 1] != '_'
    ensures CheckVerdict(Some(s), alert) == Rejected(UsernameInvalidStartNumber, alert)
  {
  }

  /** Any character outside `[0-9a-zA-Z_]` rejects the name, before its length is looked at. */
  lemma DisallowedCharRule(s: string, alert: bool, i: nat)
    requires i < |s| && !AllowedChar(s[i])
    requires s[0] != '_' && s[|s| - 1] != '_' && !IsDigit(s[0])
    ensures CheckVerdict(Some(s), alert) == Rejected(UsernameInvalid, alert)
  {
    ScanRejects(s, 0);
  }

  /** A name that passes the character rules is judged by its length: below 5 too short, above 32 too long. */
  lemma LengthRule(s: string, alert: bool)
    requires !(alert && s == "")
    requires |s| == 0 || (s[0] != '_' && s[|s| - 1] != '_' && !IsDigit(s[0]))
    requires forall i :: 0 <= i < |s| ==> AllowedChar(s[i])
    ensures |s| < 5 ==> CheckVerdict(Some(s), alert) == Rejected(UsernameInvalidShort, alert)
    ensures |s| > 32 ==> CheckVerdict(Some(s), alert) == Rejected(UsernameInvalidLong, alert)
  {
    ScanPassesIff(s, 0);
  }

  /** A few concrete names. */
  lemma Examples()
    ensures CheckVerdict(Some("alice"), false) == Accepted
    ensures CheckVerdict(Some("al1ce_x"), true) == Accepted
    ensures CheckVerdict(Some("bob"), true) == Rejected(UsernameInvalidShort, true)
    ensures CheckVerdict(Some("9lives"), false) == Rejected(UsernameInvalidStartNumber, false)
    ensures CheckVerdict(Some("_alice"), true) == Rejected(UsernameInvalid, false)
    ensures CheckVerdict(Some("a-b"), true) == Rejected(UsernameInvalid, true)
    ensures CheckVerdict(Some(""), false) == Rejected(UsernameInvalidShort, false)
  {
  }
}
