/** struct fp_config and the loops of src/config.c that fill it, print it and read it back. */
module ConfigStore {
  import opened Wrappers
  import opened Text
  import opened Address
  import opened BypassLanguage
  import opened ConfigFile

  class Config {
    var addr: Ipv4
    var port: nat
    var bypass: array<Bypass>
    var count: nat

    ghost predicate Valid()
      reads this
    {
      bypass.Length == MAX_BYPASS && count <= MAX_BYPASS
    }

    ghost function Entries(): seq<Bypass>
      reads this, bypass
      requires Valid()
    {
      bypass[..count]
    }

    ghost function Value(): Conf
      reads this, bypass
      requires Valid()
    {
      Conf(addr, port, Entries())
    }

    constructor ()
      ensures Valid() && fresh(bypass) && Value() == Conf(0, 0, [])
    {
      addr, port, count := 0, 0, 0;
      bypass := new Bypass[MAX_BYPASS](_ => Bypass(0, 0, ""));
    }

    /** append_bypass. */
    method AppendBypass(value: string) returns (ok: bool)
      requires Valid()
      modifies this`count, bypass
      ensures Valid()
      ensures Append(old(Entries()), Check(value)) == if ok then Some(Entries()) else None
      ensures !ok ==> Entries() == old(Entries())
    {
      var token := WithoutBlanks(value);
      if |token| == 0 || |token| >= TOKEN_SIZE || count >= MAX_BYPASS {
        return false;
      }
      var entry := EntryOf(token);
      if entry.None? {
        return false;
      }
      StoreEntry(entry.value);
      return true;
    }

    /** The search for a duplicate and the store at the end of the list. */
    method StoreEntry(e: Bypass)
      requires Valid() && count < MAX_BYPASS
      modifies this`count, bypass
      ensures Valid() && Insert(old(Entries()), e) == Some(Entries())
    {
      ghost var before := Entries();
      var index := 0;
      while index < count
        invariant 0 <= index <= count
        invariant forall i :: 0 <= i < index ==> !(before[i].network == e.network && before[i].prefix == e.prefix)
      {
        if bypass[index].network == e.network && bypass[index].prefix == e.prefix {
          assert before[index] == bypass[index];
          return;
        }
        index := index + 1;
      }
      bypass[count] := e;
      count := count + 1;
      assert Entries() == before + [e];
    }

    /** The loop of fp_parse_bypass_list; `checks` are the verdicts on its tokens. */
    method ParseTokens(value: string, ghost checks: seq<Option<Bypass>>) returns (ok: bool)
      requires Valid() && ChecksFrom(value, 0, 0, checks)
      modifies this`count, bypass
      ensures Valid()
      ensures AppendAll(old(Entries()), checks) == if ok then Some(Entries()) else None
      ensures !ok ==> Entries() == []
    {
      ghost var goal, left := AppendAll(Entries(), checks), checks;
      var start, cursor := 0, 0;
      ok := true;
      while true
        invariant Valid() && ok
        invariant 0 <= start <= cursor <= |value|
        invariant ChecksFrom(value, start, cursor, left)
        invariant AppendAll(Entries(), left) == goal
        decreases |value| - cursor
      {
        if cursor == |value| || value[cursor] == ',' {
          ok := AppendBypass(value[start..cursor]);
          if !ok || cursor == |value| {
            break;
          }
          start, left := cursor + 1, left[1..];
        }
        cursor := cursor + 1;
      }
      if !ok {
        count := 0;
      }
    }

    /** fp_parse_bypass_list: on failure the list is empty. */
    method ParseBypassList(value: string) returns (ok: bool)
      requires Valid()
      modifies this`count, bypass
      ensures Valid()
      ensures ok == ParseList(value).Some?
      ensures Entries() == if ok then ParseList(value).value else []
    {
      count := 0;
      if value == "" {
        return true;
      }
      ChecksFromSplit(value, 0, 0);
      assert value[0..] == value && Entries() == [];
      ok := ParseTokens(value, Checks(Split(value, ',')));
    }

    /** fp_parse_proxy: nothing changes on failure. */
    method ParseProxyInto(value: string) returns (ok: bool)
      requires Valid()
      modifies this`addr, this`port
      ensures ok == ParseProxy(value).Some?
      ensures addr == (if ok then ParseProxy(value).value.addr else old(addr))
      ensures port == (if ok then ParseProxy(value).value.port else old(port))
    {
      var separator := FindLast(value, ':');
      if separator.None? || separator.value == 0 {
        return false;
      }
      if separator.value >= ADDRESS_SIZE {
        return false;
      }
      var number := Strtol(value[separator.value + 1..]);
      if number.used < |value| - separator.value - 1 || number.value < 1 || number.value > 65535 {
        return false;
      }
      var address := ParseQuad(value[..separator.value]);
      if address.None? {
        return false;
      }
      addr := address.value;
      port := number.value;
      return true;
    }

    /** fp_config_save, up to the file it has written. */
    method Save() returns (file: string)
      requires Valid()
      ensures file == SaveText(Value())
    {
      file := "proxy=" + PrintQuad(addr) + ":" + Decimal(port) + "\n";
      var index := 0;
      while index < count
        invariant 0 <= index <= count
        invariant file + BypassLines(Entries()[index..]) == SaveText(Value())
      {
        assert Entries()[index..][1..] == Entries()[index + 1..];
        file := file + ("bypass=" + bypass[index].text + "\n");
        index := index + 1;
      }
    }

    /** fp_config_load on a readable file. */
    method Load(file: string) returns (ok: bool)
      requires Valid()
      modifies this, bypass
      ensures Valid() && bypass == old(bypass)
      ensures ok == LoadText(file).Some?
      ensures ok ==> Value() == LoadText(file).value
    {
      addr, port, count := 0, 0, 0;
      var result, invalid := -1, false;
      var rest := file;
      while rest != ""
        invariant Valid() && bypass == old(bypass)
        invariant LoadFrom(Loading(Value(), result, invalid), rest) == LoadFrom(START, file)
        decreases |rest|
      {
        var n := Chunk(rest);
        var line := Content(rest[..n]);
        rest := rest[n..];
        if "proxy=" <= line {
          var parsed := ParseProxyInto(line[6..]);
          result := if parsed then 0 else -1;
          if !parsed {
            invalid := true;
          }
        } else if "bypass=" <= line {
          var taken := AppendBypass(line[7..]);
          if !taken {
            invalid := true;
          }
        }
      }
      return result == 0 && !invalid;
    }
  }

  /** The loops of append_bypass that drop blanks at both ends. */
  method WithoutBlanks(value: string) returns (token: string)
    ensures token == Trim(value)
  {
    var start, length := 0, |value|;
    WholeSlice(value);
    while length > 0 && Blank(value[start])
      invariant 0 <= start && 0 <= length && start + length == |value|
      invariant TrimLeft(value[start..start + length]) == TrimLeft(value)
    {
      SliceTail(value, start, start + length);
      start, length := start + 1, length - 1;
    }
    while length > 0 && Blank(value[start + length - 1])
      invariant 0 <= start && 0 <= length && start + length <= |value|
      invariant TrimRight(value[start..start + length]) == Trim(value)
    {
      SliceFront(value, start, start + length);
      length := length - 1;
    }
    token := value[start..start + length];
  }

  lemma WholeSlice(s: string)
    ensures s[0..|s|] == s
  {
  }

  lemma SliceTail(s: string, i: nat, j: nat)
    requires i < j <= |s|
    ensures s[i..j][1..] == s[i + 1..j] && s[i..j][0] == s[i]
  {
  }

  lemma SliceFront(s: string, i: nat, j: nat)
    requires i < j <= |s|
    ensures s[i..j][..j - i - 1] == s[i..j - 1] && s[i..j][j - i - 1] == s[j - 1]
  {
  }

  /** `checks` are the verdicts on the tokens that the scan over the characters cuts off
      from here on. */
  predicate ChecksFrom(value: string, start: nat, cursor: nat, checks: seq<Option<Bypass>>)
    requires start <= cursor <= |value|
    decreases |value| - cursor
  {
    if cursor == |value| then |checks| == 1 && checks[0] == Check(value[start..cursor])
    else if value[cursor] == ',' then
      |checks| > 1 && checks[0] == Check(value[start..cursor]) && ChecksFrom(value, cursor + 1, cursor + 1, checks[1..])
    else ChecksFrom(value, start, cursor + 1, checks)
  }

  lemma ChecksCons(token: string, tokens: seq<string>)
    ensures Checks([token] + tokens)[0] == Check(token)
    ensures Checks([token] + tokens)[1..] == Checks(tokens)
  {
  }

  lemma LastToken(value: string, start: nat)
    requires start <= |value| && Without(value[start..|value|], ',')
    ensures Split(value[start..], ',') == [value[start..|value|]]
  {
    SliceToEnd(value, start);
    FindAbsent(value[start..], ',');
  }

  lemma TokenBeforeComma(value: string, start: nat, cursor: nat)
    requires start <= cursor < |value| && value[cursor] == ',' && Without(value[start..cursor], ',')
    ensures Split(value[start..], ',') == [value[start..cursor]] + Split(value[cursor + 1..], ',')
  {
    CutAt(value, start, cursor);
    SplitAfter(value[start..cursor], ',', value[cursor + 1..]);
  }

  lemma NoCommaYet(value: string, start: nat, cursor: nat)
    requires start <= cursor < |value| && value[cursor] != ',' && Without(value[start..cursor], ',')
    ensures Without(value[start..cursor + 1], ',')
  {
    SliceOneMore(value, start, cursor);
  }

  /** The scan cuts the text exactly at its commas. */
  lemma {:induction false} ChecksFromSplit(value: string, start: nat, cursor: nat)
    requires start <= cursor <= |value|
    requires Without(value[start..cursor], ',')
    ensures ChecksFrom(value, start, cursor, Checks(Split(value[start..], ',')))
    decreases |value| - cursor
  {
    if cursor == |value| {
      LastToken(value, start);
    } else if value[cursor] == ',' {
      TokenBeforeComma(value, start, cursor);
      ChecksCons(value[start..cursor], Split(value[cursor + 1..], ','));
      ChecksFromSplit(value, cursor + 1, cursor + 1);
    } else {
      NoCommaYet(value, start, cursor);
      ChecksFromSplit(value, start, cursor + 1);
    }
  }
}
