/**
 * The structural check of a saved interview log (`validate_log`). Reading the
 * file and `json.load` are not modelled: the check starts from what loading
 * produced. Python's `key in x` is modelled for every JSON value it can meet,
 * including the values on which it raises, because a malformed log can make
 * the check raise instead of returning.
 */
module ValidateLogs {
  import opened Util

  /** A value `json.load` can produce (numbers are kept as integers). */
  datatype Json =
    | JNull
    | JBool(b: bool)
    | JNum(n: int)
    | JStr(s: string)
    | JArr(elems: seq<Json>)
    | JObj(fields: map<string, Json>)

  /**
   * What reading the file gave: no such path; a file that is not valid JSON
   * (`json.JSONDecodeError`, the one error the check catches); a path that
   * exists but cannot be read as UTF-8 text (a directory, undecodable bytes,
   * no permission), whose error escapes the check; or the parsed value.
   */
  datatype LoadResult = FileMissing | Unparseable | Unreadable | Parsed(log: Json)

  /** The check returned `ok`, after warning about the turns numbered in `warnings`; or it raised. */
  datatype Outcome = Returned(ok: bool, warnings: seq<nat>) | Raised

  const TopKeys: seq<string> := ["participant_name", "turns", "final_feedback"]
  const TurnKeys: seq<string> := ["turn_id", "agent_visible_message", "user_message", "internal_thoughts"]
  const ThoughtsKey: string := "internal_thoughts"
  const Markers: seq<string> := ["[Observer]:", "[Interviewer]:", "[Critic]:"]

  /** The two keys the check reads after testing for them are among those it tests. */
  lemma ReadKeysAreTested()
    ensures "turns" in TopKeys && ThoughtsKey in TurnKeys
  {
    assert TopKeys[1] == "turns" && TurnKeys[3] == ThoughtsKey;
  }

  /** The values `in` accepts on its right: a string, a list or a dict. */
  predicate IsContainer(c: Json) {
    c.JStr? || c.JArr? || c.JObj?
  }

  /** Python's `key in c` for a string `key`; `None` is the `TypeError` raised on a number, bool or null. */
  function PyIn(key: string, c: Json): (r: Option<bool>)
    ensures r.Some? <==> IsContainer(c)
    ensures c.JObj? ==> r == Some(key in c.fields)
    ensures c.JArr? ==> r == Some(JStr(key) in c.elems)
    ensures c.JStr? ==> r == Some(Contains(c.s, key))
  {
    match c
    case JStr(s) => Some(Contains(s, key))
    case JArr(elems) => Some(JStr(key) in elems)
    case JObj(fields) => Some(key in fields)
    case _ => None
  }

  /** The result of testing `key in c` for each key in turn, stopping at the first that fails. */
  datatype KeyScan = AllPresent | Absent | NotContainer

  function ScanKeys(keys: seq<string>, c: Json): (r: KeyScan)
    ensures r == AllPresent <==> forall k :: k in keys ==> PyIn(k, c) == Some(true)
    ensures r == NotContainer <==> keys != [] && !IsContainer(c)
  {
    if keys == [] then AllPresent
    else
      match PyIn(keys[0], c)
      case None => NotContainer
      case Some(false) => Absent
      case Some(true) => ScanKeys(keys[1..], c)
  }

  /** `any(marker in thoughts for marker in Markers)`, with `None` when it raises. */
  function AnyMarker(markers: seq<string>, thoughts: Json): Option<bool> {
    if markers == [] then Some(false)
    else
      match PyIn(markers[0], thoughts)
      case None => None
      case Some(true) => Some(true)
      case Some(false) => AnyMarker(markers[1..], thoughts)
  }

  /** How the check of one turn ends. */
  datatype TurnStatus = Crash | MissingKey | Fine(warn: bool)

  /**
   * One turn: a missing key fails the check (the message's `turn.get` raises
   * unless the turn is a dict); with all keys present, `turn.get` again needs a
   * dict, and the marker test warns but never fails.
   */
  function CheckTurn(turn: Json): TurnStatus {
    match ScanKeys(TurnKeys, turn)
    case NotContainer => Crash
    case Absent => if turn.JObj? then MissingKey else Crash
    case AllPresent =>
      if !turn.JObj? then Crash
      else
        assert TurnKeys[3] == ThoughtsKey && ThoughtsKey in TurnKeys;
        match AnyMarker(Markers, turn.fields[ThoughtsKey])
        case None => Crash
        case Some(found) => Fine(!found)
  }

  /** Turns `i` and on, with the warnings so far. */
  function CheckTurns(turns: seq<Json>, i: nat, warnings: seq<nat>): Outcome
    requires i <= |turns|
    decreases |turns| - i
  {
    if i == |turns| then Returned(true, warnings)
    else
      match CheckTurn(turns[i])
      case Crash => Raised
      case MissingKey => Returned(false, warnings)
      case Fine(warn) => CheckTurns(turns, i + 1, warnings + (if warn then [i + 1] else []))
  }

  /** What `validate_log` does with what loading produced. */
  function Validate(load: LoadResult): (r: Outcome)
    ensures load.FileMissing? || load.Unparseable? ==> r == Returned(false, [])
    ensures load.Unreadable? ==> r == Raised
    ensures r.Returned? && r.ok ==>
              load.Parsed? && load.log.JObj? && "turns" in load.log.fields && load.log.fields["turns"].JArr?
  {
    match load
    case FileMissing => Returned(false, [])
    case Unparseable => Returned(false, [])
    case Unreadable => Raised
    case Parsed(log) =>
      match ScanKeys(TopKeys, log)
      case NotContainer => Raised
      case Absent => Returned(false, [])
      case AllPresent =>
        if !log.JObj? then Raised  // `log['participant_name']` needs a dict
        else
          assert TopKeys[1] == "turns" && "turns" in TopKeys;
          if !log.fields["turns"].JArr? then Returned(false, [])
        else CheckTurns(log.fields["turns"].elems, 0, [])
  }

  // ---------------------------------------------------------------------
  // The check as written: loops with early returns
  // ---------------------------------------------------------------------

  method ScanKeysLoop(keys: seq<string>, c: Json) returns (r: KeyScan)
    ensures r == ScanKeys(keys, c)
  {
    var i := 0;
    while i < |keys|
      invariant 0 <= i <= |keys|
      invariant ScanKeys(keys, c) == ScanKeys(keys[i..], c)
    {
      assert keys[i..][1..] == keys[i + 1..];
      var found := PyIn(keys[i], c);
      if found.None? {
        return NotContainer;
      } else if !found.value {
        return Absent;
      }
      i := i + 1;
    }
    return AllPresent;
  }

  method AnyMarkerLoop(thoughts: Json) returns (r: Option<bool>)
    ensures r == AnyMarker(Markers, thoughts)
  {
    var i := 0;
    while i < |Markers|
      invariant 0 <= i <= |Markers|
      invariant AnyMarker(Markers, thoughts) == AnyMarker(Markers[i..], thoughts)
    {
      assert Markers[i..][1..] == Markers[i + 1..];
      var found := PyIn(Markers[i], thoughts);
      if found.None? {
        return None;
      } else if found.value {
        return Some(true);
      }
      i := i + 1;
    }
    return Some(false);
  }

  /** `validate_log` after the file has been read. */
  method ValidateLog(load: LoadResult) returns (r: Outcome)
    ensures r == Validate(load)
  {
    ReadKeysAreTested();
    if load.Unreadable? {
      return Raised;
    } else if !load.Parsed? {
      return Returned(false, []);
    }
    var log := load.log;
    var top := ScanKeysLoop(TopKeys, log);
    if top == NotContainer {
      return Raised;
    } else if top == Absent {
      return Returned(false, []);
    }
    if !log.JObj? {
      return Raised;
    }
    if !log.fields["turns"].JArr? {
      return Returned(false, []);
    }
    var turns := log.fields["turns"].elems;
    var warnings: seq<nat> := [];
    var i := 0;
    while i < |turns|
      invariant 0 <= i <= |turns|
      invariant Validate(load) == CheckTurns(turns, i, warnings)
    {
      var turn := turns[i];
      var keys := ScanKeysLoop(TurnKeys, turn);
      if keys == NotContainer {
        return Raised;
      } else if keys == Absent {
        if turn.JObj? {
          return Returned(false, warnings);
        }
        return Raised;
      }
      if !turn.JObj? {
        return Raised;
      }
      var found := AnyMarkerLoop(turn.fields[ThoughtsKey]);
      if found.None? {
        return Raised;
      }
      assert CheckTurn(turn) == Fine(!found.value);
      ghost var before := warnings;
      if !found.value {
        warnings := warnings + [i + 1];
      } else {
        assert warnings == warnings + [];
      }
      assert CheckTurns(turns, i, before) == CheckTurns(turns, i + 1, warnings);
      i := i + 1;
    }
    return Returned(true, warnings);
  }

  // ---------------------------------------------------------------------
  // What the check accepts
  // ---------------------------------------------------------------------

  /** A turn the check passes: a dict with the four keys whose thoughts `in` can search. */
  predicate TurnConforms(turn: Json) {
    && turn.JObj?
    && (forall k :: k in TurnKeys ==> k in turn.fields)
    && ThoughtsKey in turn.fields && IsContainer(turn.fields[ThoughtsKey])
  }

  /** A dict turn whose thoughts hold none of the agent markers. */
  predicate Markerless(turn: Json) {
    turn.JObj? && ThoughtsKey in turn.fields
    && forall m :: m in Markers ==> PyIn(m, turn.fields[ThoughtsKey]) == Some(false)
  }

  /** A log the check passes: a dict with the three keys whose `turns` is a list of conforming turns. */
  predicate Conforms(log: Json) {
    && log.JObj?
    && (forall k :: k in TopKeys ==> k in log.fields)
    && "turns" in log.fields && log.fields["turns"].JArr?
    && forall turn :: turn in log.fields["turns"].elems ==> TurnConforms(turn)
  }

  lemma {:induction false} AnyMarkerRaises(markers: seq<string>, thoughts: Json)
    ensures AnyMarker(markers, thoughts).None? <==> markers != [] && !IsContainer(thoughts)
    ensures AnyMarker(markers, thoughts) == Some(true) <==> exists m :: m in markers && PyIn(m, thoughts) == Some(true)
  {
    if markers != [] {
      AnyMarkerRaises(markers[1..], thoughts);
      assert markers == [markers[0]] + markers[1..];
    }
  }

  lemma CheckTurnFine(turn: Json)
    ensures CheckTurn(turn).Fine? <==> TurnConforms(turn)
    ensures CheckTurn(turn) == Fine(true) <==> TurnConforms(turn) && Markerless(turn)
  {
    ReadKeysAreTested();
    if turn.JObj? && ThoughtsKey in turn.fields {
      AnyMarkerRaises(Markers, turn.fields[ThoughtsKey]);
    }
  }

  /**
   * The turn loop returns `True` exactly when every remaining turn conforms;
   * a warning is given for exactly the conforming turns without a marker.
   */
  lemma {:induction false} CheckTurnsTrue(turns: seq<Json>, i: nat, warnings: seq<nat>)
    requires i <= |turns|
    ensures var r := CheckTurns(turns, i, warnings);
            r.Returned? && r.ok <==> forall j :: i <= j < |turns| ==> TurnConforms(turns[j])
    ensures var r := CheckTurns(turns, i, warnings);
            r.Returned? ==> warnings <= r.warnings
    ensures var r := CheckTurns(turns, i, warnings);
            r.Returned? && r.ok ==>
              forall n :: n in r.warnings[|warnings|..] <==> i < n <= |turns| && CheckTurn(turns[n - 1]) == Fine(true)
    decreases |turns| - i
  {
    if i < |turns| {
      CheckTurnFine(turns[i]);
      match CheckTurn(turns[i])
      case Crash =>
      case MissingKey =>
      case Fine(warn) =>
        var w := warnings + (if warn then [i + 1] else []);
        CheckTurnsTrue(turns, i + 1, w);
        var r := CheckTurns(turns, i + 1, w);
        if r.Returned? && r.ok {
          assert r.warnings[|warnings|..] == (if warn then [i + 1] else []) + r.warnings[|w|..];
        }
    }
  }

  /** The check returns `True` exactly for a conforming log; `turn_id` values and order are not looked at. */
  lemma ValidateTrueIff(load: LoadResult)
    ensures Validate(load).Returned? && Validate(load).ok <==> load.Parsed? && Conforms(load.log)
  {
    ReadKeysAreTested();
    if load.Parsed? {
      var log := load.log;
      if ScanKeys(TopKeys, log) == AllPresent && log.JObj? && log.fields["turns"].JArr? {
        var turns := log.fields["turns"].elems;
        CheckTurnsTrue(turns, 0, []);
        assert (forall j :: 0 <= j < |turns| ==> TurnConforms(turns[j]))
           <==> (forall turn :: turn in turns ==> TurnConforms(turn));
      }
    }
  }

  /** A missing file, a file that does not parse, or a dict log without one of the three keys gives `False`. */
  lemma FailsWithoutTopKeys(load: LoadResult, key: string)
    requires !load.Unreadable?
    requires !load.Parsed? || (load.log.JObj? && key in TopKeys && key !in load.log.fields)
    ensures Validate(load) == Returned(false, [])
  {
    if load.Parsed? {
    }
  }

  /** Warnings are given, in order, for exactly the turns of a passing log whose thoughts hold no marker. */
  lemma WarningsNameMarkerlessTurns(log: Json)
    requires Conforms(log)
    ensures var r := Validate(Parsed(log));
            var turns := log.fields["turns"].elems;
            r.Returned? && r.ok && forall n :: n in r.warnings <==> 1 <= n <= |turns| && Markerless(turns[n - 1])
  {
    ReadKeysAreTested();
    ValidateTrueIff(Parsed(log));
    var turns := log.fields["turns"].elems;
    CheckTurnsTrue(turns, 0, []);
    var r := Validate(Parsed(log));
    assert r.warnings[0..] == r.warnings;
    forall n
      ensures n in r.warnings <==> 1 <= n <= |turns| && Markerless(turns[n - 1])
    {
      if 1 <= n <= |turns| {
        var k := n - 1;
        assert turns[k] in turns;
        CheckTurnFine(turns[k]);
      }
    }
  }
}
