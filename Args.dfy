/**
 * The argument interpreter of `main`: `args[0]` is the program name, the URL
 * is always `args[1]` (trimmed), and the tokens from index 2 on are scanned
 * left to right for `-X <method>` and `-d <data>`.
 */
module Args {
  import opened Wrappers
  import opened Text

  const MethodFlag: string := "-X"
  const DataFlag: string := "-d"
  const DefaultMethod: string := "GET"

  /** The three slots the loop fills. */
  datatype Config = Config(url: string, methodName: string, data: string)

  /** The token at `i` is `flag` and a value follows it. */
  predicate FlagWithValue(args: seq<string>, i: nat, flag: string) {
    i + 1 < |args| && args[i] == flag
  }

  /** The token at `i` is `-X` or `-d` and consumes the token after it. */
  predicate ConsumesNext(args: seq<string>, i: nat) {
    FlagWithValue(args, i, MethodFlag) || FlagWithValue(args, i, DataFlag)
  }

  /** How far the loop index moves after examining the token at `i`. */
  function Width(args: seq<string>, i: nat): (w: nat)
    ensures w == 1 || w == 2
  {
    if ConsumesNext(args, i) then 2 else 1
  }

  /**
   * The `(methodName, data)` slots the loop ends with when it is at index `i`
   * holding `methodName` and `data`.
   */
  function Scan(args: seq<string>, i: nat, methodName: string, data: string): (string, string)
    decreases |args| - i
  {
    if i >= |args| then (methodName, data)
    else if FlagWithValue(args, i, MethodFlag) then Scan(args, i + 2, Upper(args[i + 1]), data)
    else if FlagWithValue(args, i, DataFlag) then Scan(args, i + 2, methodName, args[i + 1])
    else Scan(args, i + 1, methodName, data)
  }

  /**
   * What the argument interpreter produces: nothing when there is no URL
   * argument, otherwise the trimmed `args[1]` and the slots after the scan.
   */
  function ParseArgs(args: seq<string>): (r: Option<Config>)
    ensures r.None? <==> |args| < 2
    ensures r.Some? ==> r.value.url == Trim(args[1])
  {
    if |args| < 2 then None
    else
      var slots := Scan(args, 2, DefaultMethod, "");
      Some(Config(Trim(args[1]), slots.0, slots.1))
  }

  /** The loop of `main`, with its mutable slots and index. */
  method ParseArgsLoop(args: seq<string>) returns (cfg: Option<Config>)
    ensures cfg == ParseArgs(args)
  {
    if |args| < 2 {
      return None;
    }
    var url := Trim(args[1]);
    var methodName := DefaultMethod;
    var data := "";
    var i := 2;
    while i < |args|
      invariant 2 <= i <= |args|
      invariant Scan(args, i, methodName, data) == Scan(args, 2, DefaultMethod, "")
      decreases |args| - i
    {
      if args[i] == MethodFlag {
        if i + 1 < |args| {
          methodName := Upper(args[i + 1]);
          i := i + 1;
        }
      } else if args[i] == DataFlag {
        if i + 1 < |args| {
          data := args[i + 1];
          i := i + 1;
        }
      }
      i := i + 1;
    }
    cfg := Some(Config(url, methodName, data));
  }

  /** The indices, from `i` on, whose token the loop examines as a possible flag. */
  function Examined(args: seq<string>, i: nat): seq<nat>
    decreases |args| - i
  {
    if i >= |args| then [] else [i] + Examined(args, i + Width(args, i))
  }

  /** Every index in `e` lies in `[lo, hi)`. */
  predicate InRange(e: seq<nat>, lo: nat, hi: nat) {
    forall k :: 0 <= k < |e| ==> lo <= e[k] < hi
  }

  /** The indices in `e` strictly increase. */
  predicate Increasing(e: seq<nat>) {
    forall k, l :: 0 <= k < l < |e| ==> e[k] < e[l]
  }

  /** Each index in `e` is the previous one plus the previous one's width. */
  predicate Steps(args: seq<string>, e: seq<nat>) {
    forall k :: 0 <= k < |e| - 1 ==> e[k + 1] == e[k] + Width(args, e[k])
  }

  /** The examined indices lie in `[i, |args|)`. */
  lemma {:induction false} ExaminedBounds(args: seq<string>, i: nat)
    ensures InRange(Examined(args, i), i, |args|)
    decreases |args| - i
  {
    if i < |args| {
      var j := i + Width(args, i);
      ExaminedBounds(args, j);
      var e := Examined(args, i);
      assert e == [i] + Examined(args, j);
    }
  }

  /** `e` starts at `i`, and its last index's width ends the scan exactly at `|args|`. */
  predicate ScanEnds(args: seq<string>, e: seq<nat>, i: nat) {
    |e| > 0 && e[0] == i && e[|e| - 1] + Width(args, e[|e| - 1]) == |args|
  }

  /**
   * Each examined index is the previous one plus its width; the first is `i`
   * and the last one's width ends the scan exactly at `|args|`.
   */
  lemma {:induction false} ExaminedSteps(args: seq<string>, i: nat)
    ensures Steps(args, Examined(args, i))
    ensures i < |args| ==> ScanEnds(args, Examined(args, i), i)
    decreases |args| - i
  {
    if i < |args| {
      var j := i + Width(args, i);
      ExaminedSteps(args, j);
      var t := Examined(args, j);
      var e := Examined(args, i);
      assert e == [i] + t;
      forall k | 0 <= k < |e| - 1 ensures e[k + 1] == e[k] + Width(args, e[k]) {
        if k > 0 {
          assert e[k] == t[k - 1] && e[k + 1] == t[k];
        }
      }
    }
  }

  /** The examined indices strictly increase. */
  lemma {:induction false} ExaminedIncreasing(args: seq<string>, i: nat)
    ensures Increasing(Examined(args, i))
    decreases |args| - i
  {
    if i < |args| {
      var j := i + Width(args, i);
      ExaminedIncreasing(args, j);
      ExaminedBounds(args, j);
      var t := Examined(args, j);
      var e := Examined(args, i);
      assert e == [i] + t;
      forall k, l | 0 <= k < l < |e| ensures e[k] < e[l] {
        assert e[l] == t[l - 1] && t[l - 1] >= j;
        if k > 0 {
          assert e[k] == t[k - 1];
        } else {
          assert e[k] == i;
        }
      }
    }
  }

  /**
   * The examined indices lie in `[i, |args|)`, strictly increase, each is the
   * previous one plus its width, and the last one's width ends the scan
   * exactly at `|args|`: the loop index only grows, so the loop terminates.
   */
  lemma ExaminedShape(args: seq<string>, i: nat)
    ensures InRange(Examined(args, i), i, |args|)
    ensures Increasing(Examined(args, i))
    ensures Steps(args, Examined(args, i))
    ensures i < |args| ==> ScanEnds(args, Examined(args, i), i)
  {
    ExaminedBounds(args, i);
    ExaminedIncreasing(args, i);
    ExaminedSteps(args, i);
  }

  /** No index in `e` is the value of a flag at another index in `e`. */
  predicate ValuesSkipped(args: seq<string>, e: seq<nat>) {
    forall k, l :: 0 <= k < |e| && 0 <= l < |e| && ConsumesNext(args, e[k]) ==> e[l] != e[k] + 1
  }

  /** The value after a `-X` or `-d` is consumed: the loop never examines it as a flag. */
  lemma ValueNeverExamined(args: seq<string>, i: nat)
    ensures ValuesSkipped(args, Examined(args, i))
  {
    ExaminedShape(args, i);
    var e := Examined(args, i);
    forall k, l | 0 <= k < |e| && 0 <= l < |e| && ConsumesNext(args, e[k])
      ensures e[l] != e[k] + 1
    {
      if l > k {
        if l > k + 1 {
          assert e[k + 1] < e[l];
        }
      }
    }
  }

  /** Every token from `i` on is either examined or is the value consumed by the examined token before it. */
  lemma {:induction false} EveryTokenAccountedFor(args: seq<string>, i: nat)
    ensures forall j :: i <= j < |args| ==>
      j in Examined(args, i) || (j >= 1 && j - 1 in Examined(args, i) && ConsumesNext(args, j - 1))
    decreases |args| - i
  {
    if i < |args| {
      var w := Width(args, i);
      EveryTokenAccountedFor(args, i + w);
      var t := Examined(args, i + w);
      var e := Examined(args, i);
      assert e == [i] + t;
      forall j | i <= j < |args|
        ensures j in e || (j >= 1 && j - 1 in e && ConsumesNext(args, j - 1))
      {
        if j == i {
          assert e[0] == j;
        } else if j < i + w {
          assert j - 1 == i && e[0] == i;
        } else if j in t {
          assert j in e;
        } else {
          assert j - 1 in t;
        }
      }
    }
  }

  /** No examined index from position `from` of `e` on holds `flag` with a value. */
  predicate NoFlagFrom(args: seq<string>, e: seq<nat>, from: nat, flag: string) {
    forall l :: from <= l < |e| ==> !FlagWithValue(args, e[l], flag)
  }

  /** Position `k` of `e` holds the last `flag` that has a value. */
  predicate LastFlagAt(args: seq<string>, e: seq<nat>, k: nat, flag: string) {
    k < |e| && FlagWithValue(args, e[k], flag) && NoFlagFrom(args, e, k + 1, flag)
  }

  lemma NoFlagFromTail(args: seq<string>, i: nat, t: seq<nat>, from: nat, flag: string)
    ensures NoFlagFrom(args, [i] + t, from + 1, flag) <==> NoFlagFrom(args, t, from, flag)
  {
    var e := [i] + t;
    assert forall l :: 0 <= l < |t| ==> t[l] == e[l + 1];
    if NoFlagFrom(args, e, from + 1, flag) {
      forall l | from <= l < |t| ensures !FlagWithValue(args, t[l], flag) {
        assert t[l] == e[l + 1];
      }
    }
  }

  /** One step of the scan, from index `i` to index `i + Width(args, i)`. */
  lemma ScanStep(args: seq<string>, i: nat, methodName: string, data: string)
    requires i < |args|
    ensures var methodName' := if FlagWithValue(args, i, MethodFlag) then Upper(args[i + 1]) else methodName;
      var data' := if !FlagWithValue(args, i, MethodFlag) && FlagWithValue(args, i, DataFlag) then args[i + 1] else data;
      Scan(args, i, methodName, data) == Scan(args, i + Width(args, i), methodName', data')
    ensures Examined(args, i) == [i] + Examined(args, i + Width(args, i))
  {
  }

  /** Without any examined `-X v`, `methodName` keeps its starting value. */
  lemma {:induction false} MethodDefaultKept(args: seq<string>, i: nat, methodName: string, data: string)
    requires NoFlagFrom(args, Examined(args, i), 0, MethodFlag)
    ensures Scan(args, i, methodName, data).0 == methodName
    decreases |args| - i
  {
    if i < |args| {
      var j := i + Width(args, i);
      var data' := if FlagWithValue(args, i, DataFlag) then args[i + 1] else data;
      ScanStep(args, i, methodName, data);
      var e := Examined(args, i);
      assert e[0] == i;
      NoFlagFromTail(args, i, Examined(args, j), 0, MethodFlag);
      MethodDefaultKept(args, j, methodName, data');
    }
  }

  /** Without any examined `-d v`, `data` keeps its starting value. */
  lemma {:induction false} DataDefaultKept(args: seq<string>, i: nat, methodName: string, data: string)
    requires NoFlagFrom(args, Examined(args, i), 0, DataFlag)
    ensures Scan(args, i, methodName, data).1 == data
    decreases |args| - i
  {
    if i < |args| {
      var j := i + Width(args, i);
      var methodName' := if FlagWithValue(args, i, MethodFlag) then Upper(args[i + 1]) else methodName;
      ScanStep(args, i, methodName, data);
      var e := Examined(args, i);
      assert e[0] == i;
      NoFlagFromTail(args, i, Examined(args, j), 0, DataFlag);
      DataDefaultKept(args, j, methodName', data);
    }
  }

  /** Last write wins for `methodName`: it is `Upper(v)` for the last examined `-X v` that has a value. */
  lemma {:induction false} LastMethodWins(args: seq<string>, i: nat, methodName: string, data: string, k: nat)
    requires LastFlagAt(args, Examined(args, i), k, MethodFlag)
    ensures Scan(args, i, methodName, data).0 == Upper(args[Examined(args, i)[k] + 1])
    decreases |args| - i
  {
    var j := i + Width(args, i);
    var methodName' := if FlagWithValue(args, i, MethodFlag) then Upper(args[i + 1]) else methodName;
    var data' := if !FlagWithValue(args, i, MethodFlag) && FlagWithValue(args, i, DataFlag) then args[i + 1] else data;
    ScanStep(args, i, methodName, data);
    var t := Examined(args, j);
    var e := Examined(args, i);
    NoFlagFromTail(args, i, t, k, MethodFlag);
    if k == 0 {
      assert e[0] == i;
      MethodDefaultKept(args, j, methodName', data');
    } else {
      assert t[k - 1] == e[k];
      NoFlagFromTail(args, i, t, k - 1, MethodFlag);
      LastMethodWins(args, j, methodName', data', k - 1);
    }
  }

  /** Last write wins for `data`: it is `v` for the last examined `-d v` that has a value. */
  lemma {:induction false} LastDataWins(args: seq<string>, i: nat, methodName: string, data: string, k: nat)
    requires LastFlagAt(args, Examined(args, i), k, DataFlag)
    ensures Scan(args, i, methodName, data).1 == args[Examined(args, i)[k] + 1]
    decreases |args| - i
  {
    var j := i + Width(args, i);
    var methodName' := if FlagWithValue(args, i, MethodFlag) then Upper(args[i + 1]) else methodName;
    var data' := if !FlagWithValue(args, i, MethodFlag) && FlagWithValue(args, i, DataFlag) then args[i + 1] else data;
    ScanStep(args, i, methodName, data);
    var t := Examined(args, j);
    var e := Examined(args, i);
    NoFlagFromTail(args, i, t, k, DataFlag);
    if k == 0 {
      assert e[0] == i;
      DataDefaultKept(args, j, methodName', data');
    } else {
      assert t[k - 1] == e[k];
      NoFlagFromTail(args, i, t, k - 1, DataFlag);
      LastDataWins(args, j, methodName', data', k - 1);
    }
  }

  /** The token after `-d` is data even when it looks like a flag. */
  lemma FlagLikeValueIsData()
    ensures ParseArgs(["curl", "http://h", "-d", "-X"]) == Some(Config("http://h", "GET", "-X"))
  {
    var args := ["curl", "http://h", "-d", "-X"];
    TrimKeeps("http://h");
    assert !FlagWithValue(args, 2, MethodFlag) && FlagWithValue(args, 2, DataFlag);
    assert Scan(args, 2, DefaultMethod, "") == Scan(args, 4, DefaultMethod, "-X");
  }

  /** A trailing `-X` with nothing after it is ignored; the earlier `-X post` stands. */
  lemma TrailingFlagIgnored()
    ensures ParseArgs(["curl", "http://h", "-X", "post", "-X"]) == Some(Config("http://h", "POST", ""))
  {
    var args := ["curl", "http://h", "-X", "post", "-X"];
    TrimKeeps("http://h");
    var r := Upper("post");
    assert r[0] == 'P' && r[1] == 'O' && r[2] == 'S' && r[3] == 'T';
    assert Upper(args[3]) == "POST";
    assert FlagWithValue(args, 2, MethodFlag);
    assert !FlagWithValue(args, 4, MethodFlag) && !FlagWithValue(args, 4, DataFlag);
    assert Scan(args, 2, DefaultMethod, "") == Scan(args, 4, "POST", "") == Scan(args, 5, "POST", "");
  }

  /** The URL is the trimmed second token even when it looks like a flag; an unknown token is skipped. */
  lemma UrlIsSecondToken()
    ensures ParseArgs(["curl", " -X ", "put"]) == Some(Config("-X", "GET", ""))
  {
    var s := " -X ";
    assert SkipForward(s, 0) == 1;
    var r := Trim(s);
    assert r[0] == '-';
    assert r == s[1..1 + |r|];
    assert !IsWhitespace(s[2]) && IsWhitespace(s[3]);
    assert |r| == 2;
    assert r == "-X";
    var args := ["curl", " -X ", "put"];
    assert !FlagWithValue(args, 2, MethodFlag) && !FlagWithValue(args, 2, DataFlag);
    assert Scan(args, 2, DefaultMethod, "") == Scan(args, 3, DefaultMethod, "");
  }

  /** `-X post -d a=1` selects POST (upper-cased) and the form data `a=1`. */
  lemma PostWithData()
    ensures ParseArgs(["curl", "http://h", "-X", "post", "-d", "a=1"]) == Some(Config("http://h", "POST", "a=1"))
  {
    var args := ["curl", "http://h", "-X", "post", "-d", "a=1"];
    TrimKeeps("http://h");
    var r := Upper("post");
    assert r[0] == 'P' && r[1] == 'O' && r[2] == 'S' && r[3] == 'T';
    assert Upper(args[3]) == "POST";
    assert FlagWithValue(args, 2, MethodFlag);
    assert !FlagWithValue(args, 4, MethodFlag) && FlagWithValue(args, 4, DataFlag);
    assert Scan(args, 2, DefaultMethod, "") == Scan(args, 4, "POST", "") == Scan(args, 6, "POST", "a=1");
  }
}
