/** sc_str_join() of src/str_util.cpp, and splitting as its inverse. */
module StrUtil {

  function Join(tokens: seq<string>, sep: char): string {
    if tokens == [] then ""
    else if |tokens| == 1 then tokens[0]
    else Join(tokens[..|tokens| - 1], sep) + [sep] + tokens[|tokens| - 1]
  }

  function TotalSize(tokens: seq<string>): nat {
    if tokens == [] then 0 else TotalSize(tokens[..|tokens| - 1]) + |tokens[|tokens| - 1]|
  }

  /** The loop appends token by token; what was reserved is exactly what is used. */
  method StrJoin(tokens: seq<string>, sep: char) returns (result: string, reserved: nat)
    ensures result == Join(tokens, sep)
    ensures reserved == |result|
  {
    if tokens == [] {
      return "", 0;
    }
    reserved := 0;
    for i := 0 to |tokens|
      invariant reserved == TotalSize(tokens[..i])
    {
      assert tokens[..i + 1][..i] == tokens[..i];
      reserved := reserved + |tokens[i]|;
    }
    assert tokens[..|tokens|] == tokens;
    reserved := reserved + (|tokens| - 1);
    JoinLength(tokens, sep);
    result := "";
    for i := 0 to |tokens|
      invariant result == Join(tokens[..i], sep)
    {
      assert tokens[..i + 1][..i] == tokens[..i];
      if i > 0 {
        result := result + [sep];
      }
      result := result + tokens[i];
    }
  }

  lemma {:induction false} JoinLength(tokens: seq<string>, sep: char)
    requires tokens != []
    ensures |Join(tokens, sep)| == TotalSize(tokens) + |tokens| - 1
    decreases |tokens|
  {
    if |tokens| == 1 {
      assert tokens[..0] == [];
    } else {
      JoinLength(tokens[..|tokens| - 1], sep);
    }
  }

  /** Cuts at every separator; there is always at least one piece. */
  function Split(s: string, sep: char): (r: seq<string>)
    ensures r != []
  {
    if s == "" then [""]
    else
      var r := Split(s[..|s| - 1], sep);
      var c := s[|s| - 1];
      if c == sep then r + [""] else r[..|r| - 1] + [r[|r| - 1] + [c]]
  }

  ghost predicate Free(tokens: seq<string>, sep: char) {
    forall i :: 0 <= i < |tokens| ==> sep !in tokens[i]
  }

  lemma {:induction false} SplitIsFree(s: string, sep: char)
    ensures Free(Split(s, sep), sep)
    decreases |s|
  {
    if s != "" {
      SplitIsFree(s[..|s| - 1], sep);
    }
  }

  /** A token without the separator extends the last piece. */
  lemma {:induction false} SplitAppend(s: string, token: string, sep: char)
    requires sep !in token
    ensures var r := Split(s, sep); Split(s + token, sep) == r[..|r| - 1] + [r[|r| - 1] + token]
    decreases |token|
  {
    if token == "" {
      assert s + token == s;
      var r := Split(s, sep);
      assert r[|r| - 1] + token == r[|r| - 1];
    } else {
      var init, c := token[..|token| - 1], token[|token| - 1];
      SplitAppend(s, init, sep);
      assert (s + token)[..|s + token| - 1] == s + init;
      var r := Split(s, sep);
      assert r[|r| - 1] + init + [c] == r[|r| - 1] + token;
    }
  }

  /** After a separator a token is a piece of its own. */
  lemma SplitNext(s: string, token: string, sep: char)
    requires sep !in token
    ensures Split(s + [sep] + token, sep) == Split(s, sep) + [token]
  {
    assert (s + [sep])[..|s|] == s;
    assert Split(s + [sep], sep) == Split(s, sep) + [""];
    SplitAppend(s + [sep], token, sep);
    assert "" + token == token;
  }

  lemma SplitOne(token: string, sep: char)
    requires sep !in token
    ensures Split(token, sep) == [token]
  {
    SplitAppend("", token, sep);
    assert "" + token == token;
  }

  lemma {:induction false} SplitJoin(tokens: seq<string>, sep: char)
    requires tokens != [] && Free(tokens, sep)
    ensures Split(Join(tokens, sep), sep) == tokens
    decreases |tokens|
  {
    var last := |tokens| - 1;
    assert tokens == tokens[..last] + [tokens[last]];
    if last == 0 {
      SplitOne(tokens[0], sep);
      assert Join(tokens, sep) == tokens[0];
    } else {
      assert Free(tokens[..last], sep);
      SplitJoin(tokens[..last], sep);
      SplitNext(Join(tokens[..last], sep), tokens[last], sep);
      assert Join(tokens, sep) == Join(tokens[..last], sep) + [sep] + tokens[last];
    }
  }

  /** Splitting undoes joining, if and only if no token contains the separator. */
  lemma SplitUndoesJoinIffFree(tokens: seq<string>, sep: char)
    requires tokens != []
    ensures Split(Join(tokens, sep), sep) == tokens <==> Free(tokens, sep)
  {
    SplitIsFree(Join(tokens, sep), sep);
    if Free(tokens, sep) {
      SplitJoin(tokens, sep);
    }
  }

  /** build_cmd() of src/util/sc_process.cpp: the command line must fit. */
  method BuildCmd(commands: seq<string>, len: nat) returns (ok: bool, cmd: string)
    ensures cmd == Join(commands, ' ')
    ensures ok <==> |cmd| < len
    ensures commands != [] ==> (Split(cmd, ' ') == commands <==> Free(commands, ' '))
  {
    var reserved;
    cmd, reserved := StrJoin(commands, ' ');
    if commands != [] {
      SplitUndoesJoinIffFree(commands, ' ');
    }
    ok := |cmd| < len;
  }
}
