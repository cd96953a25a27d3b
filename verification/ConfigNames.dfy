/** Console names: what may be one, and how the list of them and the settings of each console
    go into the configuration and come back. */
module ConfigNames {
  import opened Sequences

  // ----- what may be a name -----

  predicate IsNameChar(ch: char) {
    'a' <= ch <= 'z' || 'A' <= ch <= 'Z' || '0' <= ch <= '9' || ch == '_'
  }

  predicate IsName(name: string) {
    1 <= |name| <= 14 && forall i :: 0 <= i < |name| ==> IsNameChar(name[i])
  }

  datatype Verdict = Fine | WrongLength | WrongCharacter | Taken

  /** checkConsoleName, given the names of the other consoles. */
  method CheckConsoleName(newName: string, others: seq<string>) returns (verdict: Verdict)
    ensures verdict == Fine <==> IsName(newName) && newName !in others
    ensures verdict == WrongLength <==> !(1 <= |newName| <= 14)
    ensures verdict == Taken <==> IsName(newName) && newName in others
  {
    if |newName| > 14 || |newName| < 1 {
      return WrongLength;
    }
    var i := 0;
    while i < |newName|
      invariant 0 <= i <= |newName| && forall k :: 0 <= k < i ==> IsNameChar(newName[k])
    {
      var code := newName[i] as int;
      if ((code < 48) || (code > 122) || (code > 57 && code < 65) || (code > 90 && code < 97)) && code != 95 {
        return WrongCharacter;
      }
      i := i + 1;
    }
    var j := 0;
    while j < |others|
      invariant 0 <= j <= |others| && newName !in others[..j]
    {
      if newName == others[j] {
        return Taken;
      }
      j := j + 1;
    }
    return Fine;
  }

  // ----- the list of names -----

  predicate HasColon(s: string) {
    exists i :: 0 <= i < |s| && s[i] == ':'
  }

  function Join(names: seq<string>): string {
    if names == [] then "" else if |names| == 1 then names[0] else names[0] + ":" + Join(names[1..])
  }

  lemma {:induction false} JoinAppend(names: seq<string>, name: string)
    requires names != []
    ensures Join(names + [name]) == Join(names) + ":" + name
  {
    assert (names + [name])[1..] == names[1..] + [name];
    if |names| > 1 {
      JoinAppend(names[1..], name);
    }
  }

  method SaveNames(names: seq<string>) returns (consoleNames: string)
    ensures consoleNames == Join(names)
  {
    consoleNames := "";
    var index := 0;
    while index < |names|
      invariant 0 <= index <= |names| && consoleNames == Join(names[..index])
    {
      assert names[..index + 1] == names[..index] + [names[index]];
      if index > 0 {
        JoinAppend(names[..index], names[index]);
      }
      consoleNames := consoleNames + (if index == 0 then "" else ":") + names[index];
      index := index + 1;
    }
    assert names[..index] == names;
  }

  /** The position of the first colon, or the length of the text. */
  function FirstColon(s: string): (p: nat)
    ensures p <= |s| && (p < |s| ==> s[p] == ':') && forall i :: 0 <= i < p ==> s[i] != ':'
  {
    if s == [] || s[0] == ':' then 0 else 1 + FirstColon(s[1..])
  }

  predicate OnlyColons(s: string) {
    forall i :: 0 <= i < |s| ==> s[i] == ':'
  }

  /** Whether wxStringTokenizer has more tokens: empty ones count if something follows them,
      and the very first does in any case, unless there is no text at all. */
  predicate HasMoreTokens(rest: string, atStart: bool) {
    !OnlyColons(rest) || (atStart && rest != [])
  }

  function Tokens(rest: string, atStart: bool): seq<string>
    decreases |rest|
  {
    if !HasMoreTokens(rest, atStart) then []
    else
      var p := FirstColon(rest);
      if p == |rest| then [rest] else [rest[..p]] + Tokens(rest[p + 1..], false)
  }

  class StringTokenizer {
    var rest: string
    var atStart: bool

    constructor (text: string)
      ensures rest == text && atStart
    {
      rest, atStart := text, true;
    }

    method GetNextToken() returns (token: string)
      requires HasMoreTokens(rest, atStart)
      modifies this
      ensures |rest| < |old(rest)| && !atStart
      ensures Tokens(old(rest), old(atStart)) == [token] + Tokens(rest, atStart)
    {
      var p := 0;
      while p < |rest| && rest[p] != ':'
        invariant 0 <= p <= |rest| && forall i :: 0 <= i < p ==> rest[i] != ':'
      {
        p := p + 1;
      }
      assert p == FirstColon(rest);
      token := rest[..p];
      if p == |rest| {
        assert token == rest;
        rest := "";
      } else {
        rest := rest[p + 1..];
      }
      atStart := false;
    }
  }

  method LoadNames(consoles: string) returns (names: seq<string>)
    ensures names == Tokens(consoles, true)
  {
    var tkz := new StringTokenizer(consoles);
    names := [];
    while HasMoreTokens(tkz.rest, tkz.atStart)
      invariant names + Tokens(tkz.rest, tkz.atStart) == Tokens(consoles, true)
      decreases |tkz.rest|
    {
      var name := tkz.GetNextToken();
      names := names + [name];
    }
  }

  // ----- there and back -----

  /** No name has a colon in it and the last is not empty. */
  ghost predicate Recoverable(names: seq<string>) {
    (forall i :: 0 <= i < |names| ==> !HasColon(names[i])) && (names != [] ==> names[|names| - 1] != "")
  }

  lemma ColonComesAfter(first: string, rest: string)
    requires !HasColon(first)
    ensures var s := first + ":" + rest;
            FirstColon(s) == |first| && s[..|first|] == first && s[|first| + 1..] == rest
  {
    var s := first + ":" + rest;
    assert s[|first|] == ':' && forall i :: 0 <= i < |first| ==> s[i] == first[i];
  }

  lemma TokenBefore(first: string, rest: string, atStart: bool)
    requires !HasColon(first) && !OnlyColons(rest)
    ensures Tokens(first + ":" + rest, atStart) == [first] + Tokens(rest, false)
  {
    ColonComesAfter(first, rest);
    var i :| 0 <= i < |rest| && rest[i] != ':';
    assert (first + ":" + rest)[|first| + 1 + i] != ':';
  }

  lemma {:induction false} TokensOfJoin(names: seq<string>, atStart: bool)
    requires Recoverable(names)
    ensures Tokens(Join(names), atStart) == names
    decreases |names|
  {
    if |names| == 1 {
      assert !HasColon(names[0]) && names[0][0] != ':';
      assert FirstColon(names[0]) == |names[0]|;
    } else if names != [] {
      TokensOfJoin(names[1..], false);
      NotOnlyColons(names[1..]);
      TokenBefore(names[0], Join(names[1..]), atStart);
    }
  }

  lemma {:induction false} NotOnlyColons(names: seq<string>)
    requires Recoverable(names) && names != []
    ensures !OnlyColons(Join(names))
  {
    if |names| == 1 {
      assert Join(names)[0] != ':';
    } else {
      NotOnlyColons(names[1..]);
      var rest := Join(names[1..]);
      var i :| 0 <= i < |rest| && rest[i] != ':';
      assert Join(names)[|names[0]| + 1 + i] != ':';
    }
  }

  /** A token and those behind it. */
  lemma OneMoreToken(s: string, p: nat, later: seq<string>)
    requires p == FirstColon(s) && Recoverable(later) && (later == [] ==> s[..p] != "")
    ensures Recoverable([s[..p]] + later)
  {
    var all := [s[..p]] + later;
    forall i | 0 <= i < |all| ensures !HasColon(all[i]) {
      if i > 0 {
        assert all[i] == later[i - 1];
      }
    }
  }

  lemma {:induction false} LaterTokensRecoverable(s: string)
    ensures Recoverable(Tokens(s, false)) && (Tokens(s, false) == [] ==> OnlyColons(s))
    decreases |s|
  {
    var p := FirstColon(s);
    if !OnlyColons(s) {
      if p == |s| {
        OneMoreToken(s, p, []);
        assert s[..p] == s && [s] + [] == [s];
      } else {
        LaterTokensRecoverable(s[p + 1..]);
        RestOnlyColons(s, p);
        OneMoreToken(s, p, Tokens(s[p + 1..], false));
      }
    }
  }

  lemma RestOnlyColons(s: string, p: nat)
    requires p == FirstColon(s) < |s|
    ensures OnlyColons(s[p + 1..]) && s[..p] == "" ==> OnlyColons(s)
  {
    if OnlyColons(s[p + 1..]) && s[..p] == "" {
      forall i | 0 <= i < |s| ensures s[i] == ':' {
        if i > 0 {
          assert s[i] == s[1..][i - 1];
        }
      }
    }
  }

  lemma TokensRecoverable(s: string)
    ensures Recoverable(Tokens(s, true)) || (Tokens(s, true) == [""] && s != "" && OnlyColons(s))
  {
    if s != "" && OnlyColons(s) {
      assert FirstColon(s) == 0 && s[..0] == "";
      forall i | 0 <= i < |s[1..]| ensures s[1..][i] == ':' {
        assert s[1..][i] == s[i + 1];
      }
      assert Tokens(s[1..], false) == [];
    } else {
      LaterTokensRecoverable(s);
      assert s != "" ==> Tokens(s, true) == Tokens(s, false);
    }
  }

  /** Saving and loading the list gives the names back if and only if none has a colon in it
      and the last is not empty. */
  lemma NamesComeBack(names: seq<string>)
    ensures Tokens(Join(names), true) == names <==> Recoverable(names)
  {
    if Recoverable(names) {
      TokensOfJoin(names, true);
    } else {
      TokensRecoverable(Join(names));
      if names == [""] {
        assert Join(names) == "";
      }
    }
  }

  lemma NamesAreRecoverable(names: seq<string>)
    requires forall i :: 0 <= i < |names| ==> IsName(names[i])
    ensures Recoverable(names)
  {
    forall i | 0 <= i < |names| ensures !HasColon(names[i]) && names[i] != "" {
      assert IsName(names[i]);
      forall k | 0 <= k < |names[i]| ensures names[i][k] != ':' {
        assert IsNameChar(names[i][k]);
      }
    }
  }

  /** So names that were all found fine come back. */
  lemma CheckedNamesComeBack(names: seq<string>)
    requires forall i :: 0 <= i < |names| ==> IsName(names[i])
    ensures Tokens(Join(names), true) == names
  {
    NamesAreRecoverable(names);
    NamesComeBack(names);
  }

  // ----- the settings of a console -----

  function Key(name: string, field: string): string {
    name + ":" + field
  }

  lemma ColonInKey(name: string, field: string)
    requires !HasColon(name)
    ensures FirstColon(Key(name, field)) == |name|
  {
    assert Key(name, field)[|name|] == ':' && forall i :: 0 <= i < |name| ==> Key(name, field)[i] == name[i];
  }

  /** Keys tell names and fields apart, as no name has a colon in it. */
  lemma KeyInjective(name: string, field: string, other: string, otherField: string)
    requires !HasColon(name) && !HasColon(other) && Key(name, field) == Key(other, otherField)
    ensures name == other && field == otherField
  {
    var k := Key(name, field);
    ColonInKey(name, field);
    ColonInKey(other, otherField);
    assert name == k[..|name|] && other == k[..|other|];
    assert field == k[|name| + 1..] && otherField == k[|other| + 1..];
  }

  type Config = map<string, string>

  datatype Settings = Settings(name: string, values: seq<string>)

  function WriteFields(config: Config, name: string, fields: seq<string>, values: seq<string>): Config
    requires |values| == |fields|
    decreases |fields|
  {
    if fields == [] then config
    else WriteFields(config[Key(name, fields[0]) := values[0]], name, fields[1..], values[1..])
  }

  function Write(config: Config, fields: seq<string>, consoles: seq<Settings>): Config
    requires forall i :: 0 <= i < |consoles| ==> |consoles[i].values| == |fields|
    decreases |consoles|
  {
    if consoles == [] then config
    else Write(WriteFields(config, consoles[0].name, fields, consoles[0].values), fields, consoles[1..])
  }

  lemma {:induction false} WriteFieldsElsewhere(config: Config, name: string, fields: seq<string>, values: seq<string>, key: string)
    requires |values| == |fields| && forall i :: 0 <= i < |fields| ==> Key(name, fields[i]) != key
    ensures var c := WriteFields(config, name, fields, values);
            (key in c <==> key in config) && (key in c ==> c[key] == config[key])
    decreases |fields|
  {
    if fields != [] {
      assert Key(name, fields[0]) != key;
      WriteFieldsElsewhere(config[Key(name, fields[0]) := values[0]], name, fields[1..], values[1..], key);
    }
  }

  lemma {:induction false} WriteFieldsAt(config: Config, name: string, fields: seq<string>, values: seq<string>, j: nat)
    requires |values| == |fields| && Distinct(fields) && j < |fields| && !HasColon(name)
    ensures var c := WriteFields(config, name, fields, values);
            Key(name, fields[j]) in c && c[Key(name, fields[j])] == values[j]
    decreases |fields|
  {
    var first := config[Key(name, fields[0]) := values[0]];
    if j > 0 {
      WriteFieldsAt(first, name, fields[1..], values[1..], j - 1);
    } else {
      forall i | 0 <= i < |fields[1..]| ensures Key(name, fields[1..][i]) != Key(name, fields[0]) {
        if Key(name, fields[1..][i]) == Key(name, fields[0]) {
          KeyInjective(name, fields[1..][i], name, fields[0]);
        }
      }
      WriteFieldsElsewhere(first, name, fields[1..], values[1..], Key(name, fields[0]));
    }
  }

  ghost predicate NamesDiffer(consoles: seq<Settings>) {
    && (forall i :: 0 <= i < |consoles| ==> !HasColon(consoles[i].name))
    && forall i, j :: 0 <= i < j < |consoles| ==> consoles[i].name != consoles[j].name
  }

  lemma {:induction false} WriteElsewhere(config: Config, fields: seq<string>, consoles: seq<Settings>, name: string, field: string)
    requires forall i :: 0 <= i < |consoles| ==> |consoles[i].values| == |fields| && consoles[i].name != name && !HasColon(consoles[i].name)
    requires !HasColon(name)
    ensures var c, key := Write(config, fields, consoles), Key(name, field);
            (key in c <==> key in config) && (key in c ==> c[key] == config[key])
    decreases |consoles|
  {
    if consoles != [] {
      var first := WriteFields(config, consoles[0].name, fields, consoles[0].values);
      forall i | 0 <= i < |fields| ensures Key(consoles[0].name, fields[i]) != Key(name, field) {
        if Key(consoles[0].name, fields[i]) == Key(name, field) {
          KeyInjective(consoles[0].name, fields[i], name, field);
        }
      }
      WriteFieldsElsewhere(config, consoles[0].name, fields, consoles[0].values, Key(name, field));
      WriteElsewhere(first, fields, consoles[1..], name, field);
    }
  }

  /** Every setting of every console reads back as it was written, although the fields of all
      consoles share one configuration. */
  lemma {:induction false} SettingsComeBack(config: Config, fields: seq<string>, consoles: seq<Settings>, i: nat, j: nat)
    requires forall k :: 0 <= k < |consoles| ==> |consoles[k].values| == |fields|
    requires NamesDiffer(consoles) && Distinct(fields) && i < |consoles| && j < |fields|
    ensures var c, key := Write(config, fields, consoles), Key(consoles[i].name, fields[j]);
            key in c && c[key] == consoles[i].values[j]
    decreases |consoles|
  {
    var first := WriteFields(config, consoles[0].name, fields, consoles[0].values);
    if i > 0 {
      SettingsComeBack(first, fields, consoles[1..], i - 1, j);
    } else {
      WriteFieldsAt(config, consoles[0].name, fields, consoles[0].values, j);
      WriteElsewhere(first, fields, consoles[1..], consoles[0].name, fields[j]);
    }
  }
}
