/** The pure helpers of the `mullvad account` command (mullvad-cli
    `cmds::account`): duration formatting, voucher and standard-input
    normalisation, device lookup and ordering, and the choice of account. */
module AccountCmd {
  import opened Wrappers
  import opened Text
  import WireGuard

  // ---------------------------------------------------------------------
  // format_duration

  /** The largest input `chrono::Duration::seconds` accepts (`i64::MAX`
      milliseconds, in whole seconds). */
  const MaxSeconds: nat := 9_223_372_036_854_775

  datatype TimeUnit = Days | Hours | Minutes | Seconds

  function UnitSeconds(u: TimeUnit): nat
  {
    match u
    case Days => 86400
    case Hours => 3600
    case Minutes => 60
    case Seconds => 1
  }

  function UnitName(u: TimeUnit): string
  {
    match u
    case Days => "days"
    case Hours => "hours"
    case Minutes => "minutes"
    case Seconds => "seconds"
  }

  /** The unit `format_duration` reports in: the largest one that fits. */
  function DurationUnit(seconds: nat): (u: TimeUnit)
    ensures u == Days <==> seconds >= 86400
    ensures u == Hours <==> 3600 <= seconds < 86400
    ensures u == Minutes <==> 60 <= seconds < 3600
    ensures u == Seconds <==> seconds < 60
  {
    if seconds >= 86400 then Days
    else if seconds >= 3600 then Hours
    else if seconds >= 60 then Minutes
    else Seconds
  }

  /** `format_duration`: the count of the first unit, among days, hours,
      minutes and seconds, in which the duration is nonzero. */
  function FormatDuration(seconds: nat): (s: string)
    requires seconds <= MaxSeconds
    ensures s == NatToString(seconds / UnitSeconds(DurationUnit(seconds))) + " " + UnitName(DurationUnit(seconds))
  {
    if seconds / 86400 > 0 then NatToString(seconds / 86400) + " days"
    else if seconds / 3600 > 0 then NatToString(seconds / 3600) + " hours"
    else if seconds / 60 > 0 then NatToString(seconds / 60) + " minutes"
    else NatToString(seconds) + " seconds"
  }

  /** The text is the truncated count of whole units of the largest unit
      that fits, nonzero unless the duration is 0, followed by the unit's
      name; the digits read back as that count. */
  lemma FormatDurationMeaning(seconds: nat)
    requires seconds <= MaxSeconds
    ensures var u := DurationUnit(seconds);
      var count := seconds / UnitSeconds(u);
      var s := FormatDuration(seconds);
      && count * UnitSeconds(u) <= seconds < (count + 1) * UnitSeconds(u)
      && (count == 0 <==> seconds == 0)
      && |NatToString(count)| < |s|
      && (forall i | 0 <= i < |NatToString(count)| :: IsAsciiDigit(s[i]))
      && DecimalValue(s[..|NatToString(count)|]) == count
      && s[|NatToString(count)|..] == " " + UnitName(u)
  {
    var u := DurationUnit(seconds);
    var count := seconds / UnitSeconds(u);
    var digits := NatToString(count);
    var s := FormatDuration(seconds);
    assert s == digits + " " + UnitName(u);
    assert s[..|digits|] == digits;
    assert s[|digits|..] == " " + UnitName(u);
    NatToStringRoundTrip(count);
  }

  // ---------------------------------------------------------------------
  // redeem_voucher and from_stdin

  /** `voucher.retain(|c| c.is_alphanumeric())`, restricted to ASCII. */
  method RetainAlphanumeric(voucher: string) returns (r: string)
    ensures r == Filter(IsAsciiAlphanumeric, voucher)
    ensures forall i | 0 <= i < |r| :: IsAsciiAlphanumeric(r[i])
  {
    r := [];
    var i := 0;
    while i < |voucher|
      invariant 0 <= i <= |voucher|
      invariant r == Filter(IsAsciiAlphanumeric, voucher[..i])
    {
      FilterConcat(IsAsciiAlphanumeric, voucher[..i], [voucher[i]]);
      assert voucher[..i + 1] == voucher[..i] + [voucher[i]];
      if IsAsciiAlphanumeric(voucher[i]) {
        r := r + [voucher[i]];
      }
      i := i + 1;
    }
    assert voucher[..i] == voucher;
  }

  /** A voucher code that is already clean is left as it is. */
  lemma CleanVoucherUnchanged(voucher: string)
    requires forall i | 0 <= i < |voucher| :: IsAsciiAlphanumeric(voucher[i])
    ensures Filter(IsAsciiAlphanumeric, voucher) == voucher
  {
    FilterKeepsAll(IsAsciiAlphanumeric, voucher);
  }

  predicate NotWhitespace(c: char) { !IsWhitespace(c) }

  /** The longest prefix of `s` without whitespace. */
  function TakeWord(s: string): (w: string)
    ensures |w| <= |s| && w == s[..|w|]
    ensures forall i | 0 <= i < |w| :: NotWhitespace(w[i])
    ensures |w| < |s| ==> IsWhitespace(s[|w|])
  {
    if s == [] || IsWhitespace(s[0]) then [] else [s[0]] + TakeWord(s[1..])
  }

  /** `str::split_whitespace`: the maximal runs of non-whitespace. */
  function SplitWhitespace(s: string): (words: seq<string>)
    ensures forall k | 0 <= k < |words| :: words[k] != []
    ensures forall k, i | 0 <= k < |words| && 0 <= i < |words[k]| :: NotWhitespace(words[k][i])
    decreases |s|
  {
    if s == [] then []
    else if IsWhitespace(s[0]) then SplitWhitespace(s[1..])
    else
      var w := TakeWord(s);
      [w] + SplitWhitespace(s[|w|..])
  }

  /** `join("")`. */
  function Concat(words: seq<string>): string
  {
    if words == [] then [] else words[0] + Concat(words[1..])
  }

  /** Splitting on whitespace and joining the words with nothing removes
      exactly the whitespace. */
  lemma {:induction false} ConcatSplitIsFilter(s: string)
    ensures Concat(SplitWhitespace(s)) == Filter(NotWhitespace, s)
    decreases |s|
  {
    if s == [] {
    } else if IsWhitespace(s[0]) {
      ConcatSplitIsFilter(s[1..]);
    } else {
      var w := TakeWord(s);
      var rest := s[|w|..];
      assert s == w + rest;
      FilterConcat(NotWhitespace, w, rest);
      FilterKeepsAll(NotWhitespace, w);
      ConcatSplitIsFilter(rest);
      assert SplitWhitespace(s)[1..] == SplitWhitespace(rest);
    }
  }

  /** `from_stdin`, given the line read: all whitespace (including the
       newline) removed, every other character kept in order. */
  function FromStdin(line: string): (r: string)
    ensures r == Filter(NotWhitespace, line)
  {
    ConcatSplitIsFilter(line);
    Concat(SplitWhitespace(line))
  }

  /** `unwrap_or_from_stdin`: a supplied value is returned as it is and the
      user is prompted (`prompted`) only when there is none; `line` is what
      the prompt would read. */
  method UnwrapOrFromStdin(val: Option<string>, line: string) returns (r: string, prompted: bool)
    ensures prompted <==> val.None?
    ensures val.Some? ==> r == val.value
    ensures val.None? ==> r == Filter(NotWhitespace, line)
  {
    if val.Some? {
      return val.value, false;
    }
    r := FromStdin(line);
    prompted := true;
  }

  // ---------------------------------------------------------------------
  // Devices

  datatype Device = Device(id: string, name: string, pubkey: WireGuard.PublicKey, created: int)

  datatype AccountAndDevice = AccountAndDevice(accountNumber: string, device: Device)

  datatype DeviceState = LoggedIn(account: AccountAndDevice) | LoggedOut | Revoked

  datatype CliError =
    | RpcError(message: string)
    | NotLoggedIn        // "Log in or specify an account"
    | DeviceNotFound

  /** The device test of `revoke_device`: name or id, ignoring ASCII case. */
  predicate MatchesDevice(d: Device, query: string)
  {
    EqIgnoreAsciiCase(d.name, query) || EqIgnoreAsciiCase(d.id, query)
  }

  /** The index of the first matching device, or `|devices|`. */
  function FirstMatch(devices: seq<Device>, query: string): (i: nat)
    ensures i <= |devices|
    ensures i < |devices| ==> MatchesDevice(devices[i], query)
    ensures forall j | 0 <= j < i :: !MatchesDevice(devices[j], query)
  {
    if devices == [] then 0
    else if MatchesDevice(devices[0], query) then 0
    else 1 + FirstMatch(devices[1..], query)
  }

  /** The lookup of `revoke_device`: the id passed to `remove_device`, or
      `DeviceNotFound`, in which case nothing is removed. */
  function DeviceToRevoke(devices: seq<Device>, query: string): (r: Result<string, CliError>)
    ensures r.Err? <==> forall j | 0 <= j < |devices| :: !MatchesDevice(devices[j], query)
    ensures r.Err? ==> r.error == DeviceNotFound
    ensures r.Ok? ==> exists i | 0 <= i < |devices| ::
      && MatchesDevice(devices[i], query) && r.value == devices[i].id
      && forall j | 0 <= j < i :: !MatchesDevice(devices[j], query)
  {
    var i := FirstMatch(devices, query);
    if i < |devices| then Ok(devices[i].id) else Err(DeviceNotFound)
  }

  /** The lookup ignores ASCII case in the query. */
  lemma DeviceLookupIgnoresCase(devices: seq<Device>, query: string, query': string)
    requires EqIgnoreAsciiCase(query, query')
    ensures DeviceToRevoke(devices, query) == DeviceToRevoke(devices, query')
  {
    EqIgnoreAsciiCaseIsLowerEquality(query, query');
    forall d: Device ensures MatchesDevice(d, query) <==> MatchesDevice(d, query') {
      EqIgnoreAsciiCaseIsLowerEquality(d.name, query);
      EqIgnoreAsciiCaseIsLowerEquality(d.name, query');
      EqIgnoreAsciiCaseIsLowerEquality(d.id, query);
      EqIgnoreAsciiCaseIsLowerEquality(d.id, query');
    }
    FirstMatchCongruent(devices, query, query');
  }

  lemma {:induction false} FirstMatchCongruent(devices: seq<Device>, query: string, query': string)
    requires forall d: Device :: MatchesDevice(d, query) <==> MatchesDevice(d, query')
    ensures FirstMatch(devices, query) == FirstMatch(devices, query')
  {
    if devices != [] {
      FirstMatchCongruent(devices[1..], query, query');
    }
  }

  predicate SortedByCreated(s: seq<Device>)
  {
    forall k, l | 0 <= k < l < |s| :: s[k].created <= s[l].created
  }

  /** While `a[i]` moves left to position `j`: the other devices among the
      first `i + 1` are in order, and the ones after `j` were created later
      than the moving one. */
  predicate Inserting(s: seq<Device>, i: nat, j: nat)
    requires j <= i < |s|
  {
    && (forall k, l | 0 <= k < l <= i && k != j && l != j :: s[k].created <= s[l].created)
    && (forall l | j < l <= i :: s[j].created < s[l].created)
  }

  lemma InsertingStart(s: seq<Device>, i: nat)
    requires i < |s| && SortedByCreated(s[..i])
    ensures Inserting(s, i, i)
  {
    forall k, l | 0 <= k < l <= i && k != i && l != i
      ensures s[k].created <= s[l].created
    {
      assert s[..i][k] == s[k] && s[..i][l] == s[l];
    }
  }

  /** Swapping two neighbours keeps the devices. */
  lemma SwapKeepsDevices(s: seq<Device>, j: nat)
    requires 0 < j < |s|
    ensures multiset(s[j - 1 := s[j]][j := s[j - 1]]) == multiset(s)
  {
    var t := s[j - 1 := s[j]][j := s[j - 1]];
    assert t == s[..j - 1] + [s[j], s[j - 1]] + s[j + 1..];
    assert s == s[..j - 1] + [s[j - 1], s[j]] + s[j + 1..];
  }

  lemma InsertingSwap(s: seq<Device>, i: nat, j: nat)
    requires 0 < j <= i < |s| && Inserting(s, i, j) && s[j - 1].created > s[j].created
    ensures Inserting(s[j - 1 := s[j]][j := s[j - 1]], i, j - 1)
  {
    var t := s[j - 1 := s[j]][j := s[j - 1]];
    forall k, l | 0 <= k < l <= i && k != j - 1 && l != j - 1
      ensures t[k].created <= t[l].created
    {
      if l == j {
        assert t[l] == s[j - 1] && t[k] == s[k];
      } else if k == j {
        assert t[k] == s[j - 1] && t[l] == s[l];
      } else {
        assert t[k] == s[k] && t[l] == s[l];
      }
    }
    forall l | j - 1 < l <= i
      ensures t[j - 1].created < t[l].created
    {
      assert t[j - 1] == s[j];
    }
  }

  lemma InsertingDone(s: seq<Device>, i: nat, j: nat)
    requires j <= i < |s| && Inserting(s, i, j)
    requires j == 0 || s[j - 1].created <= s[j].created
    ensures SortedByCreated(s[..i + 1])
  {
  }

  /** Moves `a[i]` left past the later-created devices before it, so that
      the first `i + 1` devices are sorted. */
  method InsertByCreated(a: array<Device>, i: nat)
    requires i < a.Length && SortedByCreated(a[..i])
    modifies a
    ensures SortedByCreated(a[..i + 1])
    ensures multiset(a[..]) == multiset(old(a[..]))
    ensures a[i + 1..] == old(a[i + 1..])
  {
    InsertingStart(a[..], i);
    var j := i;
    while j > 0 && a[j - 1].created > a[j].created
      invariant 0 <= j <= i
      invariant Inserting(a[..], i, j)
      invariant multiset(a[..]) == multiset(old(a[..]))
      invariant a[i + 1..] == old(a[i + 1..])
    {
      ghost var s := a[..];
      InsertingSwap(s, i, j);
      SwapKeepsDevices(s, j);
      a[j - 1], a[j] := a[j], a[j - 1];
      assert a[..] == s[j - 1 := s[j]][j := s[j - 1]];
      j := j - 1;
    }
    InsertingDone(a[..], i, j);
  }

  /** `device_list.sort_unstable_by_key(|dev| dev.created.timestamp())`:
      an insertion sort by creation time. */
  method SortByCreated(a: array<Device>)
    modifies a
    ensures SortedByCreated(a[..])
    ensures multiset(a[..]) == multiset(old(a[..]))
  {
    var i := 0;
    while i < a.Length
      invariant 0 <= i <= a.Length
      invariant SortedByCreated(a[..i])
      invariant multiset(a[..]) == multiset(old(a[..]))
    {
      InsertByCreated(a, i);
      i := i + 1;
    }
    assert a[..i] == a[..];
  }

  /** `account_else_current`, given the answer to the device query the
      command makes when no account is given. */
  function AccountElseCurrent(account: Option<string>, device: Result<DeviceState, CliError>)
    : (r: Result<string, CliError>)
    ensures account.Some? ==> r == Ok(account.value)
    ensures account.None? && device.Err? ==> r == Err(device.error)
    ensures account.None? && device.Ok? ==>
      (r.Ok? <==> device.value.LoggedIn?)
      && (r.Ok? ==> r.value == device.value.account.accountNumber)
      && (r.Err? ==> r.error == NotLoggedIn)
  {
    match account
    case Some(a) => Ok(a)
    case None =>
      match device
      case Err(e) => Err(e)
      case Ok(LoggedIn(a)) => Ok(a.accountNumber)
      case Ok(_) => Err(NotLoggedIn)
  }

  /** An explicit account makes the device query irrelevant. */
  lemma ExplicitAccountIgnoresDevice(account: string, d1: Result<DeviceState, CliError>,
                                     d2: Result<DeviceState, CliError>)
    ensures AccountElseCurrent(Some(account), d1) == AccountElseCurrent(Some(account), d2) == Ok(account)
  {
  }
}
