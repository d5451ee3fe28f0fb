/**
 * ParameterParse.ParseArguments: turns the command-line tokens into a
 * dictionary from keyword to value (`None` for C#'s null). A token starting
 * with '-' is a keyword; it takes the next token as its value unless that
 * one is a keyword too or there is none. Other tokens are a leading
 * operation (FIRST_PARAM), trailing file names (LAST_PARAM, several of them
 * packed with commas) or an error (ERROR_PARAM).
 *
 * `Dictionary.Add` on a present key and `token[0]` on an empty token throw in
 * the source; here they are the two ParseError cases.
 */
module ParameterParsing {
  import opened Basics

  const FIRST_PARAM: string := "--firstParameter"
  const LAST_PARAM: string := "--lastParameter"
  const ERROR_PARAM: string := "--errorParameter"

  /** The prefix of the value stored under ERROR_PARAM. */
  const UNKNOWN_PARAMETER: string := "Unknown parameter "

  /** The parameter dictionary; `None` is a keyword given without a value. */
  type Params = map<string, Option<string>>

  /** What ParseArguments throws: `IndexOutOfRangeException` on an empty token, `ArgumentException` on a repeated key. */
  datatype ParseError = IndexOutOfRange | DuplicateKey(key: string)

  /**
   * The StringBuilder loop over the tokens `args[lo..hi]`: each token is
   * appended, preceded by a comma when the builder is not empty.
   */
  function Pack(args: seq<string>, lo: nat, hi: nat): string
    requires lo <= hi <= |args|
    decreases hi - lo
  {
    if hi == lo then ""
    else
      var sb := Pack(args, lo, hi - 1);
      (if |sb| != 0 then sb + "," else sb) + args[hi - 1]
  }

  /** The dictionary after one iteration of the loop, and the index the next iteration reads. */
  datatype Progress = Progress(params: Params, next: nat)

  /** `Dictionary.Add`, then continue at `next`. */
  function AddAt(m: Params, key: string, value: Option<string>, next: nat): Result<Progress, ParseError>
  {
    if key in m then Err(DuplicateKey(key)) else Ok(Progress(m[key := value], next))
  }

  /**
   * One iteration of the loop at index `ii`: what it adds to `m` and where
   * the loop goes on (after the loop's own `ii++`), or what it throws.
   */
  function Step(args: seq<string>, ii: nat, firstOpFlag: bool, multipleFiles: bool, m: Params): (r: Result<Progress, ParseError>)
    requires ii < |args|
    ensures r.Ok? ==> ii < r.value.next <= |args| + 1
  {
    var para := args[ii];
    if |para| == 0 then Err(IndexOutOfRange)
    else if para[0] == '-' then
      if ii == |args| - 1 then AddAt(m, para, None, ii + 1)
      else if |args[ii + 1]| == 0 then Err(IndexOutOfRange)
      else if args[ii + 1][0] == '-' then AddAt(m, para, None, ii + 1)
      else AddAt(m, para, Some(args[ii + 1]), ii + 2)
    else if ii == 0 && firstOpFlag then AddAt(m, FIRST_PARAM, Some(para), ii + 1)
    else if multipleFiles then AddAt(m, LAST_PARAM, Some(Pack(args, ii, |args|)), |args| + 1)
    else if ii == |args| - 1 then AddAt(m, LAST_PARAM, Some(para), ii + 1)
    else AddAt(m, ERROR_PARAM, Some(UNKNOWN_PARAMETER + para), ii + 1)
  }

  /** The loop from index `ii` with dictionary `m`. */
  function Run(args: seq<string>, ii: nat, firstOpFlag: bool, multipleFiles: bool, m: Params): Result<Params, ParseError>
    decreases |args| + 1 - ii
  {
    if ii >= |args| then Ok(m)
    else
      match Step(args, ii, firstOpFlag, multipleFiles, m)
      case Err(e) => Err(e)
      case Ok(p) => Run(args, p.next, firstOpFlag, multipleFiles, p.params)
  }

  /** What ParseArguments returns, or the exception it throws. */
  function Parse(args: seq<string>, firstOpFlag: bool, multipleFiles: bool): Result<Params, ParseError>
  {
    Run(args, 0, firstOpFlag, multipleFiles, map[])
  }

  /** The StringBuilder loop: the tokens from index `from` on, packed as `Pack` says. */
  method PackFrom(args: seq<string>, from: nat) returns (multFiles: string)
    requires from <= |args|
    ensures multFiles == Pack(args, from, |args|)
  {
    multFiles := "";
    for jj := from to |args|
      invariant multFiles == Pack(args, from, jj)
    {
      if |multFiles| != 0 {
        multFiles := multFiles + ",";
      }
      multFiles := multFiles + args[jj];
    }
  }

  /** The body of the loop at index `ii`: it does what `Step` describes. */
  method ParseToken(args: seq<string>, ii: nat, firstOpFlag: bool, multipleFiles: bool, m_params: Params)
    returns (r: Result<Progress, ParseError>)
    requires ii < |args|
    ensures r == Step(args, ii, firstOpFlag, multipleFiles, m_params)
  {
    var para := args[ii];
    if |para| == 0 {
      return Err(IndexOutOfRange);
    }
    if para[0] == '-' {
      if ii != |args| - 1 && |args[ii + 1]| == 0 {
        return Err(IndexOutOfRange);
      }
      if para in m_params {
        return Err(DuplicateKey(para));
      }
      if ii == |args| - 1 || args[ii + 1][0] == '-' {
        r := Ok(Progress(m_params[para := None], ii + 1));
      } else {
        r := Ok(Progress(m_params[para := Some(args[ii + 1])], ii + 2));
      }
    } else if ii == 0 && firstOpFlag {
      if FIRST_PARAM in m_params {
        return Err(DuplicateKey(FIRST_PARAM));
      }
      r := Ok(Progress(m_params[FIRST_PARAM := Some(para)], ii + 1));
    } else if multipleFiles {
      var multFiles := PackFrom(args, ii);
      if LAST_PARAM in m_params {
        return Err(DuplicateKey(LAST_PARAM));
      }
      r := Ok(Progress(m_params[LAST_PARAM := Some(multFiles)], |args| + 1));
    } else if ii == |args| - 1 {
      if LAST_PARAM in m_params {
        return Err(DuplicateKey(LAST_PARAM));
      }
      r := Ok(Progress(m_params[LAST_PARAM := Some(para)], ii + 1));
    } else {
      if ERROR_PARAM in m_params {
        return Err(DuplicateKey(ERROR_PARAM));
      }
      r := Ok(Progress(m_params[ERROR_PARAM := Some(UNKNOWN_PARAMETER + para)], ii + 1));
    }
  }

  /** The imperative loop of the source; it ends with the parse `Parse` describes. */
  method ParseArguments(args: seq<string>, firstOpFlag: bool, multipleFiles: bool)
    returns (r: Result<Params, ParseError>)
    ensures r == Parse(args, firstOpFlag, multipleFiles)
  {
    var m_params: Params := map[];
    var ii := 0;
    while ii < |args|
      invariant 0 <= ii <= |args| + 1
      invariant Run(args, ii, firstOpFlag, multipleFiles, m_params) == Parse(args, firstOpFlag, multipleFiles)
      decreases |args| + 1 - ii
    {
      var step := ParseToken(args, ii, firstOpFlag, multipleFiles, m_params);
      if step.Err? {
        return Err(step.error);
      }
      m_params := step.value.params;
      ii := step.value.next;
    }
    r := Ok(m_params);
  }

  // ---------------------------------------------------------------------
  // Which keys a parse can produce

  /** A token the loop treats as a keyword. */
  predicate IsKeyword(t: string)
  {
    |t| > 0 && t[0] == '-'
  }

  /** A token the loop treats as a value. */
  predicate IsValue(t: string)
  {
    |t| > 0 && t[0] != '-'
  }

  /** A key the loop can store: one of the three special keys, or a keyword among `args`. */
  predicate ArgKey(args: seq<string>, k: string)
  {
    k == FIRST_PARAM || k == LAST_PARAM || k == ERROR_PARAM || (k in args && IsKeyword(k))
  }

  /** One iteration adds only keys `ArgKey` allows. */
  lemma StepKeys(args: seq<string>, ii: nat, firstOpFlag: bool, multipleFiles: bool, m: Params)
    requires ii < |args|
    ensures Step(args, ii, firstOpFlag, multipleFiles, m).Ok? ==>
              forall k :: k in Step(args, ii, firstOpFlag, multipleFiles, m).value.params ==> k in m || ArgKey(args, k)
  {
    assert args[ii] in args;
  }

  /** The loop from any point keeps every key of the dictionary an `ArgKey`. */
  lemma {:induction false} RunKeys(args: seq<string>, ii: nat, firstOpFlag: bool, multipleFiles: bool, m: Params)
    requires forall k :: k in m ==> ArgKey(args, k)
    ensures Run(args, ii, firstOpFlag, multipleFiles, m).Ok? ==>
              forall k :: k in Run(args, ii, firstOpFlag, multipleFiles, m).value ==> ArgKey(args, k)
    decreases |args| + 1 - ii
  {
    if ii < |args| {
      StepKeys(args, ii, firstOpFlag, multipleFiles, m);
      match Step(args, ii, firstOpFlag, multipleFiles, m)
      case Err(_) =>
      case Ok(p) => RunKeys(args, p.next, firstOpFlag, multipleFiles, p.params);
    }
  }

  /** Every key of a parsed dictionary is a special key or a keyword given on the command line. */
  lemma ParseKeys(args: seq<string>, firstOpFlag: bool, multipleFiles: bool)
    ensures Parse(args, firstOpFlag, multipleFiles).Ok? ==>
              forall k :: k in Parse(args, firstOpFlag, multipleFiles).value ==> ArgKey(args, k)
  {
    RunKeys(args, 0, firstOpFlag, multipleFiles, map[]);
  }

  // ---------------------------------------------------------------------
  // Command lines made of settings

  /** A keyword with its value, or alone (a toggle). */
  datatype Setting = Setting(key: string, value: Option<string>)

  /** The tokens a setting is written as. */
  function Tokens(x: Setting): seq<string>
  {
    match x.value
    case None => [x.key]
    case Some(v) => [x.key, v]
  }

  /** The tokens of a list of settings, in order. */
  function Render(s: seq<Setting>): seq<string>
  {
    if s == [] then [] else Tokens(s[0]) + Render(s[1..])
  }

  /** The number of tokens the settings are written out as. */
  function Width(s: seq<Setting>): nat
    decreases |s|
  {
    if s == [] then 0 else |Tokens(s[0])| + Width(s[1..])
  }

  /** The dictionary after adding the settings in order. */
  function AddAll(m: Params, s: seq<Setting>): Params
    decreases |s|
  {
    if s == [] then m else AddAll(m[s[0].key := s[0].value], s[1..])
  }

  /** The keys of the settings. */
  function KeysOf(s: seq<Setting>): set<string>
    decreases |s|
  {
    if s == [] then {} else {s[0].key} + KeysOf(s[1..])
  }

  /** A setting the loop reads back as written: a keyword, and a value that is not one. */
  predicate WellFormed(x: Setting)
  {
    IsKeyword(x.key) && (x.value.Some? ==> IsValue(x.value.value))
  }

  /**
   * Each setting is well formed and its key is new to the dictionary built
   * so far from `m`, so that every `Dictionary.Add` succeeds.
   */
  predicate Fresh(s: seq<Setting>, m: Params)
    decreases |s|
  {
    s == [] || (WellFormed(s[0]) && s[0].key !in m && Fresh(s[1..], m[s[0].key := s[0].value]))
  }

  /** Position `j` of `args` is the end or a keyword, so a toggle just before it stays a toggle. */
  predicate NextIsKeyword(args: seq<string>, j: nat)
  {
    j == |args| || (j < |args| && IsKeyword(args[j]))
  }

  /** The settings end with a value, so whatever follows them is read on its own. */
  predicate EndsWithValue(s: seq<Setting>)
  {
    s == [] || s[|s| - 1].value.Some?
  }

  /** Adding the settings adds exactly their keys. */
  lemma {:induction false} AddAllKeys(m: Params, s: seq<Setting>)
    ensures AddAll(m, s).Keys == m.Keys + KeysOf(s)
    decreases |s|
  {
    if s != [] {
      AddAllKeys(m[s[0].key := s[0].value], s[1..]);
    }
  }

  /** Settings are fresh for `m` exactly when they are fresh on their own and share no key with `m`. */
  lemma {:induction false} FreshMeans(s: seq<Setting>, m: Params)
    ensures Fresh(s, m) <==> Fresh(s, map[]) && KeysOf(s) !! m.Keys
    decreases |s|
  {
    if s != [] {
      var x, rest := s[0], s[1..];
      FreshMeans(rest, m[x.key := x.value]);
      FreshMeans(rest, map[x.key := x.value]);
      assert m[x.key := x.value].Keys == m.Keys + {x.key};
      assert map[x.key := x.value].Keys == {x.key};
    }
  }

  /** All but the last of fresh settings are fresh, and the last is well formed. */
  lemma {:induction false} FreshPrefix(s: seq<Setting>, x: Setting, m: Params)
    requires Fresh(s + [x], m)
    ensures Fresh(s, m) && WellFormed(x)
    decreases |s|
  {
    if s == [] {
      assert (s + [x])[0] == x;
    } else {
      assert (s + [x])[0] == s[0] && (s + [x])[1..] == s[1..] + [x];
      FreshPrefix(s[1..], x, m[s[0].key := s[0].value]);
    }
  }

  /** The settings are written out in `args` from index `ii` on, token by token. */
  predicate WrittenAt(args: seq<string>, ii: nat, s: seq<Setting>)
    decreases |s|
  {
    s == []
    || (ii + |Tokens(s[0])| <= |args| && args[ii] == s[0].key
        && (s[0].value.Some? ==> args[ii + 1] == s[0].value.value)
        && WrittenAt(args, ii + |Tokens(s[0])|, s[1..]))
  }

  lemma Regroup<T>(a: seq<T>, b: seq<T>, c: seq<T>, d: seq<T>)
    ensures a + (b + c) + d == (a + b) + c + d
  {
  }

  /** Rendered settings are written out where they are placed. */
  lemma {:induction false} WrittenAtRender(pre: seq<string>, s: seq<Setting>, post: seq<string>)
    ensures WrittenAt(pre + Render(s) + post, |pre|, s)
    decreases |s|
  {
    if s != [] {
      var t := Tokens(s[0]);
      assert Render(s) == t + Render(s[1..]);
      Regroup(pre, t, Render(s[1..]), post);
      assert (pre + t)[|pre|] == s[0].key;
      WrittenAtRender(pre + t, s[1..], post);
    }
  }

  /** The loop goes on from wherever an iteration leaves it. */
  lemma RunAfterStep(args: seq<string>, ii: nat, firstOpFlag: bool, multipleFiles: bool, m: Params, p: Progress)
    requires ii < |args| && Step(args, ii, firstOpFlag, multipleFiles, m) == Ok(p)
    ensures Run(args, ii, firstOpFlag, multipleFiles, m) == Run(args, p.next, firstOpFlag, multipleFiles, p.params)
  {
  }

  /**
   * One iteration over the first of the settings written out at `ii` adds
   * that setting and moves past its tokens.
   */
  lemma StepReadsSetting(args: seq<string>, ii: nat, s: seq<Setting>, firstOpFlag: bool, multipleFiles: bool, m: Params)
    requires s != [] && WrittenAt(args, ii, s) && Fresh(s, m)
    requires s[0].value.Some? || NextIsKeyword(args, ii + 1)
    ensures Step(args, ii, firstOpFlag, multipleFiles, m) == Ok(Progress(m[s[0].key := s[0].value], ii + |Tokens(s[0])|))
  {
  }

  /**
   * Settings written out at position `ii` of `args`, each new to the
   * dictionary built from `m`, and not followed by a value token that a
   * trailing keyword alone would take as its value.
   */
  predicate Layout(args: seq<string>, ii: nat, s: seq<Setting>, m: Params)
  {
    WrittenAt(args, ii, s) && Fresh(s, m) && (EndsWithValue(s) || NextIsKeyword(args, ii + Width(s)))
  }

  /**
   * Settings written out at position `ii` of `args` are read back one by one:
   * the loop reaches the end of them with each setting added to `m`.
   */
  lemma {:induction false} RunRendered(args: seq<string>, ii: nat, s: seq<Setting>,
                                       firstOpFlag: bool, multipleFiles: bool, m: Params)
    requires Layout(args, ii, s, m)
    ensures Run(args, ii, firstOpFlag, multipleFiles, m)
            == Run(args, ii + Width(s), firstOpFlag, multipleFiles, AddAll(m, s))
    decreases |s|
  {
    if s != [] {
      RenderedHead(args, ii, s, m);
      RunRendered(args, ii + |Tokens(s[0])|, s[1..], firstOpFlag, multipleFiles, m[s[0].key := s[0].value]);
      ReadsFirstSetting(args, ii, s, firstOpFlag, multipleFiles, m);
    }
  }

  /** The loop moves past the first setting written out at `ii`, adding it to `m`. */
  lemma ReadsFirstSetting(args: seq<string>, ii: nat, s: seq<Setting>, firstOpFlag: bool, multipleFiles: bool, m: Params)
    requires s != [] && WrittenAt(args, ii, s) && Fresh(s, m) && (s[0].value.Some? || NextIsKeyword(args, ii + 1))
    ensures Run(args, ii, firstOpFlag, multipleFiles, m)
            == Run(args, ii + |Tokens(s[0])|, firstOpFlag, multipleFiles, m[s[0].key := s[0].value])
  {
    StepReadsSetting(args, ii, s, firstOpFlag, multipleFiles, m);
    RunAfterStep(args, ii, firstOpFlag, multipleFiles, m, Progress(m[s[0].key := s[0].value], ii + |Tokens(s[0])|));
  }

  /** Where the first setting and the rest sit, and the reading of the first one is not cut short. */
  lemma RenderedHead(args: seq<string>, ii: nat, s: seq<Setting>, m: Params)
    requires s != [] && Layout(args, ii, s, m)
    ensures Width(s) == |Tokens(s[0])| + Width(s[1..])
    ensures AddAll(m, s) == AddAll(m[s[0].key := s[0].value], s[1..])
    ensures Layout(args, ii + |Tokens(s[0])|, s[1..], m[s[0].key := s[0].value])
    ensures s[0].value.Some? || NextIsKeyword(args, ii + 1)
  {
    var x, rest := s[0], s[1..];
    if x.value.None? && rest == [] {
      assert s[|s| - 1] == x;
    }
    if rest != [] {
      assert rest[|rest| - 1] == s[|s| - 1];
    }
  }

  /** The loop stops at the first iteration that throws. */
  lemma RunStopsOnError(args: seq<string>, ii: nat, firstOpFlag: bool, multipleFiles: bool, m: Params, e: ParseError)
    requires ii < |args| && Step(args, ii, firstOpFlag, multipleFiles, m) == Err(e)
    ensures Run(args, ii, firstOpFlag, multipleFiles, m) == Err(e)
  {
  }

  /** An iteration at the first of the trailing file names stores all of them in LAST_PARAM and ends the loop. */
  lemma StepOnFiles(args: seq<string>, ii: nat, files: seq<string>, firstOpFlag: bool, multipleFiles: bool, m: Params)
    requires ii + |files| == |args| && args[ii..] == files
    requires files != [] && IsValue(files[0]) && (multipleFiles || |files| == 1)
    requires !(ii == 0 && firstOpFlag) && LAST_PARAM !in m
    ensures Step(args, ii, firstOpFlag, multipleFiles, m)
            == Ok(Progress(m[LAST_PARAM := Some(Join(files))], if multipleFiles then |args| + 1 else |args|))
  {
    assert args[ii] == files[0];
    PackIsJoin(args, ii, |args|);
    SliceToEnd(args, ii);
  }

  /** An iteration at a value token in mid-line, without `multipleFiles`, stores it under ERROR_PARAM. */
  lemma StepOnStray(args: seq<string>, ii: nat, firstOpFlag: bool, m: Params)
    requires ii + 1 < |args| && IsValue(args[ii])
    requires !(ii == 0 && firstOpFlag) && ERROR_PARAM !in m
    ensures Step(args, ii, firstOpFlag, false, m)
            == Ok(Progress(m[ERROR_PARAM := Some(UNKNOWN_PARAMETER + args[ii])], ii + 1))
  {
  }

  /**
   * An iteration at a value token that would store a special key already
   * present throws: ERROR_PARAM for a second stray token in mid-line,
   * LAST_PARAM for trailing names when `--lastParameter` was given already.
   */
  lemma StepOnSpecialRepeat(args: seq<string>, ii: nat, firstOpFlag: bool, multipleFiles: bool, m: Params)
    requires ii < |args| && IsValue(args[ii]) && !(ii == 0 && firstOpFlag)
    ensures !multipleFiles && ii + 1 < |args| && ERROR_PARAM in m
            ==> Step(args, ii, firstOpFlag, multipleFiles, m) == Err(DuplicateKey(ERROR_PARAM))
    ensures (multipleFiles || ii + 1 == |args|) && LAST_PARAM in m
            ==> Step(args, ii, firstOpFlag, multipleFiles, m) == Err(DuplicateKey(LAST_PARAM))
  {
  }

  /** An iteration at an empty token, or at a keyword followed by one, throws. */
  lemma StepOnEmpty(args: seq<string>, ii: nat, firstOpFlag: bool, multipleFiles: bool, m: Params)
    requires ii < |args|
    requires args[ii] == "" || (IsKeyword(args[ii]) && ii + 1 < |args| && args[ii + 1] == "")
    ensures Step(args, ii, firstOpFlag, multipleFiles, m) == Err(IndexOutOfRange)
  {
  }

  /** The settings are written out as `Width(s)` tokens. */
  lemma {:induction false} RenderWidth(s: seq<Setting>)
    ensures |Render(s)| == Width(s)
    decreases |s|
  {
    if s != [] {
      RenderWidth(s[1..]);
    }
  }

  /** Nothing is written out for no settings, and something for some. */
  lemma RenderEmpty(s: seq<Setting>)
    ensures Render(s) == [] <==> s == []
  {
    if s != [] {
      assert |Render(s)| == |Tokens(s[0])| + |Render(s[1..])|;
    }
  }

  /** A command line of settings parses to the dictionary of those settings. */
  lemma ParseRendered(s: seq<Setting>, firstOpFlag: bool, multipleFiles: bool)
    requires Fresh(s, map[])
    ensures Parse(Render(s), firstOpFlag, multipleFiles) == Ok(AddAll(map[], s))
  {
    WrittenAtRender([], s, []);
    assert [] + Render(s) + [] == Render(s);
    RenderWidth(s);
    RunRendered(Render(s), 0, s, firstOpFlag, multipleFiles, map[]);
  }

  /** With `firstOpFlag`, a leading value token is stored under FIRST_PARAM. */
  lemma ParseOperationThenSettings(op: string, s: seq<Setting>, multipleFiles: bool)
    requires IsValue(op) && Fresh(s, map[]) && FIRST_PARAM !in KeysOf(s)
    ensures Parse([op] + Render(s), true, multipleFiles) == Ok(AddAll(map[FIRST_PARAM := Some(op)], s))
  {
    var args := [op] + Render(s);
    var m := map[FIRST_PARAM := Some(op)];
    assert Step(args, 0, true, multipleFiles, map[]) == Ok(Progress(m, 1));
    RunAfterStep(args, 0, true, multipleFiles, map[], Progress(m, 1));
    FreshMeans(s, m);
    WrittenAtRender([op], s, []);
    assert [op] + Render(s) + [] == args;
    RenderWidth(s);
    RunRendered(args, 1, s, true, multipleFiles, m);
  }

  /** The loop from the first of the trailing file names. */
  lemma RunFromFiles(args: seq<string>, n: nat, files: seq<string>, firstOpFlag: bool, multipleFiles: bool, m: Params)
    requires n + |files| == |args| && args[n..] == files
    requires files != [] && IsValue(files[0]) && (multipleFiles || |files| == 1)
    requires !(n == 0 && firstOpFlag) && LAST_PARAM !in m
    ensures Run(args, n, firstOpFlag, multipleFiles, m) == Ok(m[LAST_PARAM := Some(Join(files))])
  {
    var next := if multipleFiles then |args| + 1 else |args|;
    StepOnFiles(args, n, files, firstOpFlag, multipleFiles, m);
    RunAfterStep(args, n, firstOpFlag, multipleFiles, m, Progress(m[LAST_PARAM := Some(Join(files))], next));
    RunAtEnd(args, next, firstOpFlag, multipleFiles, m[LAST_PARAM := Some(Join(files))]);
  }

  /** The loop over settings laid out at the start of `args` reaches their end with each setting added. */
  lemma ParsePrefix(args: seq<string>, s: seq<Setting>, firstOpFlag: bool, multipleFiles: bool)
    requires Fresh(s, map[]) && WrittenAt(args, 0, s)
    requires EndsWithValue(s) || NextIsKeyword(args, |Render(s)|)
    ensures Parse(args, firstOpFlag, multipleFiles) == Run(args, |Render(s)|, firstOpFlag, multipleFiles, AddAll(map[], s))
  {
    RenderWidth(s);
    RunRendered(args, 0, s, firstOpFlag, multipleFiles, map[]);
  }

  /** The loop over settings followed by file names, laid out in `args`. */
  lemma RunSettingsThenFiles(args: seq<string>, s: seq<Setting>, files: seq<string>, firstOpFlag: bool, multipleFiles: bool)
    requires Fresh(s, map[]) && LAST_PARAM !in KeysOf(s)
    requires files != [] && IsValue(files[0])
    requires multipleFiles || |files| == 1
    requires if s == [] then !firstOpFlag else s[|s| - 1].value.Some?
    requires |args| == |Render(s)| + |files| && args[|Render(s)|..] == files && WrittenAt(args, 0, s)
    ensures Parse(args, firstOpFlag, multipleFiles) == Ok(AddAll(map[], s)[LAST_PARAM := Some(Join(files))])
  {
    var n := |Render(s)|;
    assert LAST_PARAM !in AddAll(map[], s) && !(n == 0 && firstOpFlag) by {
      AddAllKeys(map[], s);
      RenderEmpty(s);
    }
    ParsePrefix(args, s, firstOpFlag, multipleFiles);
    RunFromFiles(args, n, files, firstOpFlag, multipleFiles, AddAll(map[], s));
  }

  /**
   * Settings followed by file names: the files end up in LAST_PARAM, joined
   * with commas. Several files need `multipleFiles`; the settings must end
   * with a value (or be absent, without `firstOpFlag`) so the first file is
   * not taken as a value or an operation.
   */
  lemma ParseSettingsThenFiles(s: seq<Setting>, files: seq<string>, firstOpFlag: bool, multipleFiles: bool)
    requires Fresh(s, map[]) && LAST_PARAM !in KeysOf(s)
    requires files != [] && IsValue(files[0])
    requires multipleFiles || |files| == 1
    requires if s == [] then !firstOpFlag else s[|s| - 1].value.Some?
    ensures Parse(Render(s) + files, firstOpFlag, multipleFiles)
            == Ok(AddAll(map[], s)[LAST_PARAM := Some(Join(files))])
  {
    FilesLayout(s, files);
    RunSettingsThenFiles(Render(s) + files, s, files, firstOpFlag, multipleFiles);
  }

  /** Where the settings and the file names sit in `Render(s) + files`. */
  lemma FilesLayout(s: seq<Setting>, files: seq<string>)
    ensures var args := Render(s) + files;
      |args| == |Render(s)| + |files| && args[|Render(s)|..] == files && WrittenAt(args, 0, s)
  {
    WrittenAtRender([], s, files);
    EmptyPrefix(Render(s), files);
    DropPrefix(Render(s), files);
  }

  /** An empty prefix changes nothing. */
  lemma EmptyPrefix<T>(a: seq<T>, b: seq<T>)
    ensures [] + a + b == a + b
  {
  }

  /** Dropping a prefix's length from a concatenation leaves the rest. */
  lemma DropPrefix<T>(a: seq<T>, b: seq<T>)
    ensures (a + b)[|a|..] == b
  {
  }

  /** The loop over settings laid out at the start of `args` ends in the error the next iteration throws. */
  lemma RunErrsAfter(args: seq<string>, s: seq<Setting>, firstOpFlag: bool, multipleFiles: bool, e: ParseError)
    requires Fresh(s, map[]) && WrittenAt(args, 0, s)
    requires EndsWithValue(s) || NextIsKeyword(args, |Render(s)|)
    requires |Render(s)| < |args| && Step(args, |Render(s)|, firstOpFlag, multipleFiles, AddAll(map[], s)) == Err(e)
    ensures Parse(args, firstOpFlag, multipleFiles) == Err(e)
  {
    ParsePrefix(args, s, firstOpFlag, multipleFiles);
    RunStopsOnError(args, |Render(s)|, firstOpFlag, multipleFiles, AddAll(map[], s), e);
  }

  /** An iteration at a setting whose key is already in the dictionary throws. */
  lemma StepOnRepeat(args: seq<string>, n: nat, s: seq<Setting>, firstOpFlag: bool, multipleFiles: bool, m: Params)
    requires s != [] && WrittenAt(args, n, s) && Fresh(s, map[]) && s[0].key in m
    requires EndsWithValue(s) || NextIsKeyword(args, n + |Render(s)|)
    ensures Step(args, n, firstOpFlag, multipleFiles, m) == Err(DuplicateKey(s[0].key))
  {
    assert |Render(s)| == |Tokens(s[0])| + |Render(s[1..])|;
    if s[0].value.None? {
      if |s| > 1 {
        assert WrittenAt(args, n + 1, s[1..]);
        assert WellFormed(s[1..][0]);
      } else {
        assert s[|s| - 1] == s[0];
      }
    }
  }

  /** The loop over the same settings written out twice, laid out in `args`. */
  lemma RunRepeated(args: seq<string>, s: seq<Setting>, firstOpFlag: bool, multipleFiles: bool)
    requires s != [] && Fresh(s, map[])
    requires |args| == 2 * |Render(s)| && WrittenAt(args, 0, s) && WrittenAt(args, |Render(s)|, s)
    ensures Parse(args, firstOpFlag, multipleFiles) == Err(DuplicateKey(s[0].key))
  {
    var n := |Render(s)|;
    assert s[0].key in AddAll(map[], s) && NextIsKeyword(args, n) && 0 < n by {
      AddAllKeys(map[], s);
      RenderEmpty(s);
    }
    StepOnRepeat(args, n, s, firstOpFlag, multipleFiles, AddAll(map[], s));
    RunErrsAfter(args, s, firstOpFlag, multipleFiles, DuplicateKey(s[0].key));
  }

  /** The same keyword given twice makes `Dictionary.Add` throw. */
  lemma RepeatedSettingsThrow(s: seq<Setting>, firstOpFlag: bool, multipleFiles: bool)
    requires s != [] && Fresh(s, map[])
    ensures Parse(Render(s) + Render(s), firstOpFlag, multipleFiles) == Err(DuplicateKey(s[0].key))
  {
    var r := Render(s);
    WrittenAtRender([], s, r);
    WrittenAtRender(r, s, []);
    assert [] + r + r == r + r && r + r + [] == r + r && |r + r| == 2 * |r|;
    RunRepeated(r + r, s, firstOpFlag, multipleFiles);
  }

  /** Past the last token the loop has ended. */
  lemma RunAtEnd(args: seq<string>, ii: nat, firstOpFlag: bool, multipleFiles: bool, m: Params)
    requires ii >= |args|
    ensures Run(args, ii, firstOpFlag, multipleFiles, m) == Ok(m)
  {
  }

  /** The loop from a value token in mid-line that is followed by settings up to the end. */
  lemma RunFromStray(args: seq<string>, n: nat, s2: seq<Setting>, firstOpFlag: bool, m1: Params)
    requires s2 != [] && n + 1 + |Render(s2)| == |args| && IsValue(args[n]) && !(n == 0 && firstOpFlag)
    requires WrittenAt(args, n + 1, s2)
    requires Fresh(s2, m1[ERROR_PARAM := Some(UNKNOWN_PARAMETER + args[n])]) && ERROR_PARAM !in m1
    ensures Run(args, n, firstOpFlag, false, m1)
            == Ok(AddAll(m1[ERROR_PARAM := Some(UNKNOWN_PARAMETER + args[n])], s2))
  {
    var m := m1[ERROR_PARAM := Some(UNKNOWN_PARAMETER + args[n])];
    RenderEmpty(s2);
    RenderWidth(s2);
    StepOnStray(args, n, firstOpFlag, m1);
    RunAfterStep(args, n, firstOpFlag, false, m1, Progress(m, n + 1));
    RunRendered(args, n + 1, s2, firstOpFlag, false, m);
    RunAtEnd(args, |args|, firstOpFlag, false, AddAll(m, s2));
  }

  /** The loop over settings, a value token, and more settings, laid out in `args`. */
  lemma RunStrayBetween(args: seq<string>, s1: seq<Setting>, t: string, s2: seq<Setting>, firstOpFlag: bool)
    requires IsValue(t) && s2 != []
    requires if s1 == [] then !firstOpFlag else s1[|s1| - 1].value.Some?
    requires Fresh(s1, map[]) && Fresh(s2, map[]) && KeysOf(s1) !! KeysOf(s2)
    requires ERROR_PARAM !in KeysOf(s1) + KeysOf(s2)
    requires |args| == |Render(s1)| + 1 + |Render(s2)| && args[|Render(s1)|] == t
    requires WrittenAt(args, 0, s1) && WrittenAt(args, |Render(s1)| + 1, s2)
    ensures Parse(args, firstOpFlag, false)
            == Ok(AddAll(AddAll(map[], s1)[ERROR_PARAM := Some(UNKNOWN_PARAMETER + t)], s2))
  {
    StrayKeys(s1, t, s2, firstOpFlag);
    ParsePrefix(args, s1, firstOpFlag, false);
    RunFromStray(args, |Render(s1)|, s2, firstOpFlag, AddAll(map[], s1));
  }

  /** The keys met before the settings after a value token are not among theirs. */
  lemma StrayKeys(s1: seq<Setting>, t: string, s2: seq<Setting>, firstOpFlag: bool)
    requires if s1 == [] then !firstOpFlag else s1[|s1| - 1].value.Some?
    requires Fresh(s2, map[]) && KeysOf(s1) !! KeysOf(s2)
    requires ERROR_PARAM !in KeysOf(s1) + KeysOf(s2)
    ensures var m1 := AddAll(map[], s1);
      Fresh(s2, m1[ERROR_PARAM := Some(UNKNOWN_PARAMETER + t)]) && ERROR_PARAM !in m1
      && !(|Render(s1)| == 0 && firstOpFlag)
  {
    var m1 := AddAll(map[], s1);
    var m := m1[ERROR_PARAM := Some(UNKNOWN_PARAMETER + t)];
    AddAllKeys(map[], s1);
    RenderEmpty(s1);
    assert m.Keys == KeysOf(s1) + {ERROR_PARAM};
    FreshMeans(s2, m);
  }

  /** Where the parts of settings, a token, and settings sit once written out. */
  lemma StrayLayout(s1: seq<Setting>, t: string, s2: seq<Setting>)
    ensures var args := Render(s1) + [t] + Render(s2);
      |args| == |Render(s1)| + 1 + |Render(s2)| && args[|Render(s1)|] == t
      && WrittenAt(args, 0, s1) && WrittenAt(args, |Render(s1)| + 1, s2)
  {
    var r1, r2 := Render(s1), Render(s2);
    var args := r1 + [t] + r2;
    WrittenAtRender([], s1, [t] + r2);
    WrittenAtRender(r1 + [t], s2, []);
    assert [] + r1 + ([t] + r2) == args && r1 + [t] + r2 + [] == args;
  }

  /** Without `multipleFiles`, a value token between settings is stored under ERROR_PARAM. */
  lemma ParseStrayToken(s1: seq<Setting>, t: string, s2: seq<Setting>, firstOpFlag: bool)
    requires IsValue(t) && s2 != []
    requires if s1 == [] then !firstOpFlag else s1[|s1| - 1].value.Some?
    requires Fresh(s1, map[]) && Fresh(s2, map[]) && KeysOf(s1) !! KeysOf(s2)
    requires ERROR_PARAM !in KeysOf(s1) + KeysOf(s2)
    ensures Parse(Render(s1) + [t] + Render(s2), firstOpFlag, false)
            == Ok(AddAll(AddAll(map[], s1)[ERROR_PARAM := Some(UNKNOWN_PARAMETER + t)], s2))
  {
    StrayLayout(s1, t, s2);
    var args := Render(s1) + [t] + Render(s2);
    RunStrayBetween(args, s1, t, s2, firstOpFlag);
  }

  /** Where the parts of settings, a token, settings, a token and a tail sit once written out. */
  lemma TwoStrayLayout(s1: seq<Setting>, t1: string, s2: seq<Setting>, t2: string, tail: seq<string>)
    ensures var r1, r2 := Render(s1), Render(s2);
      var args := r1 + [t1] + r2 + [t2] + tail;
      |args| == |r1| + 1 + |r2| + 1 + |tail| && args[|r1|] == t1 && args[|r1| + 1 + |r2|] == t2
      && WrittenAt(args, 0, s1) && WrittenAt(args, |r1| + 1, s2)
  {
    var r1, r2 := Render(s1), Render(s2);
    FivePartsAt(r1, t1, r2, t2, tail);
    WrittenAtRender([], s1, [t1] + r2 + [t2] + tail);
    WrittenAtRender(r1 + [t1], s2, [t2] + tail);
  }

  /** Where the parts of `a + [x] + b + [y] + c` sit, and how it regroups. */
  lemma FivePartsAt<T>(a: seq<T>, x: T, b: seq<T>, y: T, c: seq<T>)
    ensures var s := a + [x] + b + [y] + c;
      |s| == |a| + 1 + |b| + 1 + |c| && s[|a|] == x && s[|a| + 1 + |b|] == y
      && [] + a + ([x] + b + [y] + c) == s && a + [x] + b + ([y] + c) == s
  {
  }

  /** The loop from a value token in mid-line, over settings, to a second value token in mid-line. */
  lemma RunToSecondStray(args: seq<string>, n: nat, s2: seq<Setting>, firstOpFlag: bool, m1: Params)
    requires n + 1 + |Render(s2)| + 1 < |args| && !(n == 0 && firstOpFlag)
    requires IsValue(args[n]) && IsValue(args[n + 1 + |Render(s2)|])
    requires WrittenAt(args, n + 1, s2) && EndsWithValue(s2)
    requires Fresh(s2, m1[ERROR_PARAM := Some(UNKNOWN_PARAMETER + args[n])]) && ERROR_PARAM !in m1
    ensures Run(args, n, firstOpFlag, false, m1) == Err(DuplicateKey(ERROR_PARAM))
  {
    var m := m1[ERROR_PARAM := Some(UNKNOWN_PARAMETER + args[n])];
    var k := n + 1 + |Render(s2)|;
    StepOnStray(args, n, firstOpFlag, m1);
    RunAfterStep(args, n, firstOpFlag, false, m1, Progress(m, n + 1));
    RenderWidth(s2);
    RunRendered(args, n + 1, s2, firstOpFlag, false, m);
    AddAllKeys(m, s2);
    StepOnSpecialRepeat(args, k, firstOpFlag, false, AddAll(m, s2));
    RunStopsOnError(args, k, firstOpFlag, false, AddAll(m, s2), DuplicateKey(ERROR_PARAM));
  }

  /**
   * Without `multipleFiles`, a second value token in mid-line makes the
   * second `Add(ERROR_PARAM, ...)` throw, whatever follows it.
   */
  lemma ParseTwoStrayTokens(s1: seq<Setting>, t1: string, s2: seq<Setting>, t2: string, tail: seq<string>, firstOpFlag: bool)
    requires IsValue(t1) && IsValue(t2) && tail != []
    requires if s1 == [] then !firstOpFlag else s1[|s1| - 1].value.Some?
    requires EndsWithValue(s2)
    requires Fresh(s1, map[]) && Fresh(s2, map[]) && KeysOf(s1) !! KeysOf(s2)
    requires ERROR_PARAM !in KeysOf(s1) + KeysOf(s2)
    ensures Parse(Render(s1) + [t1] + Render(s2) + [t2] + tail, firstOpFlag, false) == Err(DuplicateKey(ERROR_PARAM))
  {
    TwoStrayLayout(s1, t1, s2, t2, tail);
    var n := |Render(s1)|;
    RunTwoStrays(Render(s1) + [t1] + Render(s2) + [t2] + tail, n, n + 1 + |Render(s2)|, s1, s2, firstOpFlag);
  }

  /** The loop over settings, a value token, settings and a second value token in mid-line, laid out in `args`. */
  lemma RunTwoStrays(args: seq<string>, n: nat, k: nat, s1: seq<Setting>, s2: seq<Setting>, firstOpFlag: bool)
    requires n == |Render(s1)| && k == n + 1 + |Render(s2)| && k + 1 < |args|
    requires IsValue(args[n]) && IsValue(args[k])
    requires if s1 == [] then !firstOpFlag else s1[|s1| - 1].value.Some?
    requires EndsWithValue(s2)
    requires Fresh(s1, map[]) && Fresh(s2, map[]) && KeysOf(s1) !! KeysOf(s2)
    requires ERROR_PARAM !in KeysOf(s1) + KeysOf(s2)
    requires WrittenAt(args, 0, s1) && WrittenAt(args, n + 1, s2)
    ensures Parse(args, firstOpFlag, false) == Err(DuplicateKey(ERROR_PARAM))
  {
    var m1 := AddAll(map[], s1);
    StrayKeys(s1, args[n], s2, firstOpFlag);
    RunToSecondStray(args, n, s2, firstOpFlag, m1);
    ParsePrefix(args, s1, firstOpFlag, false);
  }

  /**
   * Settings that give `--lastParameter` themselves, followed by file names:
   * storing the names makes `Add(LAST_PARAM, ...)` throw.
   */
  lemma ParseLastParamGivenTwice(s: seq<Setting>, files: seq<string>, firstOpFlag: bool, multipleFiles: bool)
    requires Fresh(s, map[]) && LAST_PARAM in KeysOf(s) && EndsWithValue(s)
    requires files != [] && IsValue(files[0])
    requires multipleFiles || |files| == 1
    ensures Parse(Render(s) + files, firstOpFlag, multipleFiles) == Err(DuplicateKey(LAST_PARAM))
  {
    var args := Render(s) + files;
    var n := |Render(s)|;
    FilesLayout(s, files);
    AddAllKeys(map[], s);
    RenderEmpty(s);
    assert args[n] == files[0];
    StepOnSpecialRepeat(args, n, firstOpFlag, multipleFiles, AddAll(map[], s));
    RunErrsAfter(args, s, firstOpFlag, multipleFiles, DuplicateKey(LAST_PARAM));
  }

  /** Settings written out one after the other are each written out where they start. */
  lemma {:induction false} WrittenAtSplit(args: seq<string>, ii: nat, s1: seq<Setting>, s2: seq<Setting>)
    requires WrittenAt(args, ii, s1 + s2)
    ensures WrittenAt(args, ii, s1) && WrittenAt(args, ii + |Render(s1)|, s2)
    decreases |s1|
  {
    if s1 == [] {
      assert s1 + s2 == s2;
    } else {
      assert (s1 + s2)[0] == s1[0] && (s1 + s2)[1..] == s1[1..] + s2;
      assert |Render(s1)| == |Tokens(s1[0])| + |Render(s1[1..])|;
      WrittenAtSplit(args, ii + |Tokens(s1[0])|, s1[1..], s2);
    }
  }

  /** The loop over settings followed by an empty token, laid out in `args`. */
  lemma RunIntoEmpty(args: seq<string>, s: seq<Setting>, firstOpFlag: bool, multipleFiles: bool)
    requires Fresh(s, map[]) && WrittenAt(args, 0, s)
    requires |Render(s)| < |args| && args[|Render(s)|] == ""
    ensures Parse(args, firstOpFlag, multipleFiles) == Err(IndexOutOfRange)
  {
    if EndsWithValue(s) {
      StepOnEmpty(args, |Render(s)|, firstOpFlag, multipleFiles, AddAll(map[], s));
      RunErrsAfter(args, s, firstOpFlag, multipleFiles, IndexOutOfRange);
    } else {
      // The last setting is a keyword alone, and the empty token follows it.
      var init := s[..|s| - 1];
      LastToggleLayout(args, s);
      StepOnEmpty(args, |Render(init)|, firstOpFlag, multipleFiles, AddAll(map[], init));
      RunErrsAfter(args, init, firstOpFlag, multipleFiles, IndexOutOfRange);
    }
  }

  /** Settings ending in a keyword alone: the ones before it, then that keyword's token. */
  lemma LastToggleLayout(args: seq<string>, s: seq<Setting>)
    requires Fresh(s, map[]) && WrittenAt(args, 0, s) && !EndsWithValue(s)
    ensures var init := s[..|s| - 1];
      Fresh(init, map[]) && WrittenAt(args, 0, init) && |Render(s)| == |Render(init)| + 1
      && |Render(init)| < |args| && IsKeyword(args[|Render(init)|])
  {
    var init, x := s[..|s| - 1], s[|s| - 1];
    assert s == init + [x];
    RenderSnoc(init, x);
    WrittenAtSplit(args, 0, init, [x]);
    FreshPrefix(init, x, map[]);
    assert args[|Render(init)|] == x.key && |Tokens(x)| == 1;
  }

  /** An empty token after well-formed settings makes the loop throw `IndexOutOfRangeException`. */
  lemma EmptyTokenThrows(s: seq<Setting>, tail: seq<string>, firstOpFlag: bool, multipleFiles: bool)
    requires Fresh(s, map[])
    ensures Parse(Render(s) + [""] + tail, firstOpFlag, multipleFiles) == Err(IndexOutOfRange)
  {
    var args := Render(s) + [""] + tail;
    WrittenAtRender([], s, [""] + tail);
    assert [] + Render(s) + ([""] + tail) == args;
    RunIntoEmpty(args, s, firstOpFlag, multipleFiles);
  }

  lemma {:induction false} RenderSnoc(s: seq<Setting>, x: Setting)
    ensures Render(s + [x]) == Render(s) + Tokens(x)
    decreases |s|
  {
    if s == [] {
      assert [x][1..] == [];
    } else {
      assert (s + [x])[1..] == s[1..] + [x];
      RenderSnoc(s[1..], x);
    }
  }

  // ---------------------------------------------------------------------
  // The packed file list

  /** The usual comma join: tokens with a comma between each two. */
  function Join(ts: seq<string>): string
    decreases |ts|
  {
    if ts == [] then ""
    else if |ts| == 1 then ts[0]
    else Join(ts[..|ts| - 1]) + "," + ts[|ts| - 1]
  }

  /** Slicing up to the length is slicing to the end. */
  lemma SliceToEnd<T>(xs: seq<T>, i: nat)
    requires i <= |xs|
    ensures xs[i..|xs|] == xs[i..]
  {
  }

  /** The front of a slice is the shorter slice. */
  lemma SliceFront<T>(xs: seq<T>, lo: nat, hi: nat)
    requires lo < hi <= |xs|
    ensures xs[lo..hi][..hi - lo - 1] == xs[lo..hi - 1]
    ensures xs[lo..hi][hi - lo - 1] == xs[hi - 1]
  {
  }

  /**
   * The StringBuilder packing is the comma join when the first token is not
   * empty (as it is in ParseArguments: the first packed token is a value).
   */
  lemma {:induction false} PackIsJoin(args: seq<string>, lo: nat, hi: nat)
    requires lo <= hi <= |args|
    requires lo < hi ==> |args[lo]| > 0
    ensures Pack(args, lo, hi) == Join(args[lo..hi])
    ensures lo < hi ==> |Pack(args, lo, hi)| > 0
    decreases hi - lo
  {
    if hi - lo == 1 {
      assert args[lo..hi] == [args[lo]];
    } else if hi - lo > 1 {
      PackIsJoin(args, lo, hi - 1);
      SliceFront(args, lo, hi);
    }
  }

  /** The index of the last comma of `s`, or -1. */
  function LastComma(s: string): (r: int)
    ensures -1 <= r < |s|
    ensures r >= 0 ==> s[r] == ','
    ensures forall i :: r < i < |s| ==> s[i] != ','
    decreases |s|
  {
    if s == [] then -1
    else if s[|s| - 1] == ',' then |s| - 1
    else LastComma(s[..|s| - 1])
  }

  /** A string cut at every comma. */
  function SplitCommas(s: string): seq<string>
    decreases |s|
  {
    var j := LastComma(s);
    if j < 0 then [s] else SplitCommas(s[..j]) + [s[j + 1..]]
  }

  /** A comma-free string has no comma to cut at. */
  lemma {:induction false} NoLastComma(t: string)
    requires ',' !in t
    ensures LastComma(t) == -1
    decreases |t|
  {
    if t != [] {
      assert t[|t| - 1] in t;
      var init := t[..|t| - 1];
      assert forall c :: c in init ==> c in t;
      NoLastComma(init);
    }
  }

  /** In `a + "," + t` with `t` comma-free, the last comma is the one after `a`. */
  lemma {:induction false} LastCommaBeforeTail(a: string, t: string)
    requires ',' !in t
    ensures LastComma(a + "," + t) == |a|
    decreases |t|
  {
    var s := a + "," + t;
    if t != [] {
      assert s[|s| - 1] == t[|t| - 1] && t[|t| - 1] in t;
      var init := t[..|t| - 1];
      assert forall c :: c in init ==> c in t;
      assert s[..|s| - 1] == a + "," + init;
      LastCommaBeforeTail(a, init);
    }
  }

  /** A non-empty sequence is its front followed by its last element. */
  lemma SnocParts<T>(xs: seq<T>)
    requires xs != []
    ensures xs == xs[..|xs| - 1] + [xs[|xs| - 1]]
  {
  }

  /** Cutting the join of comma-free tokens at its commas gives the tokens back. */
  lemma {:induction false} SplitJoin(ts: seq<string>)
    requires ts != []
    requires forall i :: 0 <= i < |ts| ==> ',' !in ts[i]
    ensures SplitCommas(Join(ts)) == ts
    decreases |ts|
  {
    if |ts| == 1 {
      NoLastComma(ts[0]);
    } else {
      var init, last := ts[..|ts| - 1], ts[|ts| - 1];
      var a := Join(init);
      var s := a + "," + last;
      assert Join(ts) == s;
      assert ',' !in last;
      LastCommaBeforeTail(a, last);
      assert SplitCommas(s) == SplitCommas(s[..|a|]) + [s[|a| + 1..]];
      assert s[..|a|] == a && s[|a| + 1..] == last;
      assert forall i :: 0 <= i < |init| ==> ',' !in init[i] by {
        forall i | 0 <= i < |init| ensures ',' !in init[i] { assert init[i] == ts[i]; }
      }
      SplitJoin(init);
      SnocParts(ts);
    }
  }

  /** The file names packed into LAST_PARAM can be recovered by cutting at the commas. */
  lemma FilesRecoverable(files: seq<string>)
    requires files != [] && |files[0]| > 0
    requires forall i :: 0 <= i < |files| ==> ',' !in files[i]
    ensures SplitCommas(Pack(files, 0, |files|)) == files
  {
    PackIsJoin(files, 0, |files|);
    assert files[0..|files|] == files;
    SplitJoin(files);
  }
}
