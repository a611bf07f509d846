/** environ_expand_until of init/environ.c: the expansion in place, on a buffer
    that grows and shrinks under it. */
module ExpandBuffer {
  import opened Environ

  datatype Status = Done | Failed(error: Error)

  /** The replacement text: a string of its own, or a stretch of the buffer. */
  datatype Replacement = Outside(text: string) | Inside(from: nat, count: nat)

  class Buffer {
    var str: array?<char>   // NUL-terminated; null once an expansion failed
    var len: nat            // length of the text before the NUL
    var pos: nat            // where the scan is

    ghost predicate Valid()
      reads this, str
    {
      str != null && len < str.Length && str[len] == '\0' && NoNul(str[..len]) && pos <= len
    }

    ghost function Text(): string
      requires Valid()
      reads this, str
    {
      str[..len]
    }

    /** A copy of `text`, to be expanded from its start. */
    constructor (text: string)
      requires NoNul(text)
      ensures Valid() && fresh(str) && Text() == text && pos == 0
    {
      var copy := new char[|text| + 1](i requires 0 <= i <= |text| => if i < |text| then text[i] else '\0');
      str, len, pos := copy, |text|, 0;
      new;
      assert str[..len] == text;
    }

    /** nih_realloc: `size` characters, as many old ones kept as fit. */
    method Reallocate(size: nat)
      requires str != null && len < size && len < str.Length
      modifies this`str
      ensures str != null && fresh(str) && str.Length == size
      ensures str[..len + 1] == old(str[..len + 1])
    {
      var was := str;
      var copy := new char[size];
      forall k | 0 <= k < size && k < was.Length { copy[k] := was[k]; }
      str := copy;
      assert forall k :: 0 <= k <= len ==> str[k] == was[k];
    }

    /** memmove within the buffer. */
    method Move(dst: nat, src: nat, count: nat)
      requires str != null && dst + count <= str.Length && src + count <= str.Length
      modifies str
      ensures var s := old(str[..]); str[..] == s[..dst] + s[src..src + count] + s[dst + count..]
    {
      forall k | 0 <= k < count { str[dst + k] := str[src + k]; }
    }

    /** memmove from another string. */
    method Fill(dst: nat, text: string)
      requires str != null && dst + |text| <= str.Length
      modifies str
      ensures var s := old(str[..]); str[..] == s[..dst] + text + s[dst + |text|..]
    {
      forall k | 0 <= k < |text| { str[dst + k] := text[k]; }
    }

    ghost function Meaning(v: Replacement): string
      requires Valid() && (v.Inside? ==> v.from + v.count <= len)
      reads this, str
    {
      match v
      case Outside(text) => text
      case Inside(from, count) => Text()[from..from + count]
    }

    /** Replace the reference from `start` to `pos`.  A replacement inside the
        buffer is shorter than the reference it is part of, so that it is never
        read after the buffer has been reallocated. */
    method Substitute(start: nat, v: Replacement)
      requires Valid() && start <= pos
      requires v.Outside? ==> NoNul(v.text)
      requires v.Inside? ==> start <= v.from && v.from + v.count < pos
      modifies this, str
      ensures Valid() && (str == old(str) || fresh(str))
      ensures Text() == old(Text())[..start] + old(Meaning(v)) + old(Text())[old(pos)..]
      ensures pos == start + |old(Meaning(v))|
    {
      var valueLen := if v.Outside? then |v.text| else v.count;
      if valueLen > pos - start {
        Lengthen(start, v.text);
      } else {
        Shorten(start, v);
      }
    }

    method Lengthen(start: nat, v: string)
      requires Valid() && start <= pos && |v| > pos - start && NoNul(v)
      modifies this, str
      ensures Valid() && fresh(str)
      ensures Text() == old(Text())[..start] + v + old(Text())[old(pos)..]
      ensures pos == start + |v|
    {
      ghost var text, end0 := Text(), pos;
      var offset := |v| - (pos - start);
      OpenGap(pos, offset);
      ghost var s0 := str[..];
      assert s0[..start] == s0[..end0][..start] && s0[end0 + offset..len] == text[end0..];
      Fill(start, v);
      pos := pos + offset;
      OverwrittenParts(s0, str[..], start, v, pos, len);
      Around(str[..], start, v, pos, len);
      assert text[..end0][..start] == text[..start];
      WithoutNul(text, start, v, end0);
    }

    /** Make room for `offset` more characters before `end`. */
    method OpenGap(end: nat, offset: nat)
      requires Valid() && end <= len && offset > 0
      modifies this`str, this`len
      ensures str != null && fresh(str) && len == old(len) + offset && str.Length == len + 1 && str[len] == '\0'
      ensures str[..end] == old(Text())[..end] && str[..][end + offset..len] == old(Text())[end..]
    {
      ghost var text := str[..len + 1];
      Reallocate(len + offset + 1);
      ghost var s0 := str[..];
      assert s0[..len + 1] == text;
      Move(end + offset, end, len - end + 1);
      MovedUp(s0, str[..], end, offset, len);
      assert text[..len][..end] == s0[..end] && text[..len][end..] == s0[end..len];
      len := len + offset;
    }

    /** Write the replacement over the start of the reference. */
    method Overwrite(start: nat, v: Replacement)
      requires Valid() && start <= pos
      requires v.Outside? ==> NoNul(v.text) && |v.text| <= pos - start
      requires v.Inside? ==> start <= v.from && v.from + v.count < pos
      modifies str
      ensures var s, w := old(str[..]), old(Meaning(v)); str[..] == s[..start] + w + s[start + |w|..]
      ensures NoNul(old(Meaning(v)))
    {
      ghost var s := str[..];
      assert s[..len] == Text();
      match v {
        case Outside(text) => Fill(start, text);
        case Inside(from, count) =>
          SliceNoNul(s, len, from, count);
          Move(start, from, count);
      }
    }

    /** Move the text from `end` on, and the NUL after it, down to `dst`. */
    method Close(dst: nat, end: nat)
      requires str != null && dst <= end <= len < str.Length && str[len] == '\0' && end <= pos
      modifies this`len, this`pos, str
      ensures len == old(len) - (end - dst) && pos == old(pos) - (end - dst) && len < str.Length
      ensures str[len] == '\0' && str[..len] == old(str[..dst]) + old(str[end..len])
    {
      Move(dst, end, len - end + 1);
      len := len - (end - dst);
      pos := pos - (end - dst);
    }

    method Shorten(start: nat, v: Replacement)
      requires Valid() && start <= pos
      requires v.Outside? ==> NoNul(v.text) && |v.text| <= pos - start
      requires v.Inside? ==> start <= v.from && v.from + v.count < pos
      modifies this, str
      ensures Valid() && str == old(str)
      ensures Text() == old(Text())[..start] + old(Meaning(v)) + old(Text())[old(pos)..]
      ensures pos == start + |old(Meaning(v))|
    {
      ghost var s0, was, len0 := str[..], Meaning(v), len;
      assert s0[..len0] == Text();
      var valueLen := if v.Outside? then |v.text| else v.count;
      assert |was| == valueLen;
      var end := pos;
      Overwrite(start, v);
      ghost var s1 := str[..];
      OverwrittenParts(s0, s1, start, was, end, len0);
      assert str[..start + valueLen] == s1[..start + valueLen];
      assert str[end..len] == s1[end..len];
      Close(start + valueLen, end);
      Spliced(s0, str[..len], start, was, end, len0);
    }

    // ----- the scan -----

    /** The buffer after a scan: `before` is kept, then comes what the scan produced,
        then what it left unread. */
    ghost predicate Scanned(before: string, r: Result<Scan>, status: Status)
      reads this, str
    {
      match r
      case Fail(e) => status == Failed(e) && str == null
      case Ok(scan) =>
        && status == Done && Valid()
        && pos == |before + scan.out|
        && Text() == before + scan.out + scan.rest
    }

    /** Step to the next dollar sign or stop character. */
    method Skip(until: set<char>)
      requires Valid()
      modifies this`pos
      ensures Valid() && old(pos) <= pos && Text() == old(Text())
      ensures forall k :: old(pos) <= k < pos ==> Text()[k] != '$' && Text()[k] !in until
      ensures pos < len ==> Text()[pos] == '$' || Text()[pos] in until
      ensures str[pos] == '$' <==> pos < len && Text()[pos] == '$'
    {
      ghost var text := Text();
      assert forall k :: 0 <= k < len ==> str[k] in text;
      while str[pos] != '$' && str[pos] !in until + {'\0'}
        invariant old(pos) <= pos <= len
        invariant forall k :: old(pos) <= k < pos ==> text[k] != '$' && text[k] !in until
        decreases len - pos
      {
        pos := pos + 1;
      }
    }

    /** environ_expand_until. */
    method ExpandUntil(env: Table, until: set<char>, ghost all: Result<Scan>) returns (status: Status)
      requires Valid() && ValidTable(env) && all == Expand(env, Text()[pos..], until)
      modifies this, str
      ensures Scanned(old(Text()[..pos]), all, status)
      ensures str == null || str == old(str) || fresh(str)
      decreases len - pos, 2
    {
      ghost var before, out := Text()[..pos], "";
      Prepend0(all);
      while true
        invariant Valid() && (str == old(str) || fresh(str))
        invariant Progress(env, until, before, all, out, Text(), pos)
        invariant len - pos <= old(len - pos)
        decreases len - pos
      {
        ghost var from, text := pos, Text();
        Skip(until);
        ghost var at := pos;
        out := Skipped(env, until, before, all, out, text, from, pos);
        if str[pos] != '$' {
          Stopped(env, until, before, all, out, text, pos);
          return Done;
        }
        ghost var ref := Reference(env, text[pos..]);
        status := ExpandReference(env, ref);
        ghost var now := if status.Done? then Text() else "";
        out := Replaced(env, until, before, all, out, text, at, now, ref);
        if status.Failed? { return; }
      }
    }

    /** The reference at the position, or the lone dollar sign. */
    method ExpandReference(env: Table, ghost r: Result<Scan>) returns (status: Status)
      requires Valid() && ValidTable(env) && pos < len && Text()[pos] == '$' && r == Reference(env, Text()[pos..])
      modifies this, str
      ensures Scanned(old(Text()[..pos]), r, status)
      ensures str == null || str == old(str) || fresh(str)
      decreases len - pos, 1
    {
      ReferenceCases(env, Text(), pos);
      status := ReferenceAt(env, r);
    }

    method ReferenceAt(env: Table, ghost r: Result<Scan>) returns (status: Status)
      requires Valid() && ValidTable(env) && pos < len && IsReference(env, Text(), pos, r)
      modifies this, str
      ensures Scanned(old(Text()[..pos]), r, status)
      ensures str == null || str == old(str) || fresh(str)
      decreases len - pos, 0
    {
      ghost var text := Text();
      var start := pos;
      pos := pos + 1;
      TextChars(pos);
      assert Text() == text;
      if NameStart(str[pos]) {
        status := SimpleReference(env, start, r);
      } else if str[pos] == '{' && str[pos + 1] == '}' {
        status := EmptyBraces(env, start, r);
      } else if str[pos] == '{' {
        status := BracedReference(env, start, r);
      } else {
        status := LoneDollar(env, start, r);
      }
    }

    /** The characters at a position and after it, and the NUL at the end. */
    lemma TextChars(at: nat)
      requires Valid() && at <= len
      ensures if at < len then str[at] == Text()[at] && str[at] != '\0' else str[at] == '\0'
      ensures at < len ==> if at + 1 < len then str[at + 1] == Text()[at + 1] else str[at + 1] == '\0'
    {
      assert at < len ==> str[at] in Text();
    }

    /** Anything else after the dollar sign at `start`, which stands for itself. */
    method LoneDollar(ghost env: Table, start: nat, ghost r: Result<Scan>) returns (status: Status)
      requires Valid() && ValidTable(env) && pos == start + 1 && IsReference(env, Text(), start, r)
      requires pos < len ==> !NameStart(Text()[pos]) && Text()[pos] != '{'
      ensures Scanned(Text()[..start], r, status)
    {
      IsLone(env, Text(), start, r);
      assert pos == |Text()[..start] + "$"|;
      status := Done;
    }

    /** The empty braces after the dollar sign at `start`, which stand for one dollar sign. */
    method EmptyBraces(ghost env: Table, start: nat, ghost r: Result<Scan>) returns (status: Status)
      requires Valid() && ValidTable(env) && pos == start + 1 && pos + 1 < len
      requires Text()[pos] == '{' && Text()[pos + 1] == '}' && IsReference(env, Text(), start, r)
      modifies this, str
      ensures Scanned(old(Text()[..start]), r, status)
      ensures str == null || str == old(str) || fresh(str)
    {
      ghost var text, before := Text(), Text()[..start];
      IsEscape(env, text, start, r);
      pos := pos + 2;
      assert Text() == text;
      Substitute(start, Outside("$"));
      status := Done;
      assert pos == |before + "$"|;
    }

    /** The error path: the buffer is freed. */
    method Discard(e: Error) returns (status: Status)
      modifies this`str
      ensures str == null && status == Failed(e)
    {
      str := null;
      status := Failed(e);
    }

    lemma TextSlice(from: nat, to: nat)
      requires Valid() && from <= to <= len
      ensures str[from..to] == Text()[from..to]
    {
    }

    /** Step over the name characters at the position. */
    method SkipName()
      requires Valid()
      modifies this`pos
      ensures Valid() && Text() == old(Text())
      ensures pos == old(pos) + NameLength(Text()[old(pos)..])
    {
      ghost var text, start := Text(), pos;
      while NameChar(str[pos])
        invariant start <= pos <= len
        invariant forall k :: start <= k < pos ==> NameChar(text[k])
        decreases len - pos
      {
        assert pos < len ==> text[pos] == str[pos];
        pos := pos + 1;
      }
      assert pos < len ==> text[pos] == str[pos];
      LongestName(text[start..], pos - start);
    }

    /** A name right after the dollar sign at `start`. */
    method SimpleReference(env: Table, start: nat, ghost r: Result<Scan>) returns (status: Status)
      requires Valid() && ValidTable(env) && pos == start + 1 && IsReference(env, Text(), start, r)
      requires pos < len && NameStart(Text()[pos])
      modifies this, str
      ensures Scanned(old(Text()[..start]), r, status)
      ensures str == null || str == old(str) || fresh(str)
    {
      ghost var end := IsName(env, Text(), start, r);
      status := SimpleValue(env, start, end, r);
    }

    method SimpleValue(env: Table, start: nat, ghost end: nat, ghost r: Result<Scan>) returns (status: Status)
      requires Valid() && ValidTable(env) && start < pos && end == pos + NameLength(Text()[pos..])
      requires r == Simple(env, Text()[pos..end], Text()[end..])
      modifies this, str
      ensures Scanned(old(Text()[..start]), r, status)
      ensures str == null || str == old(str) || fresh(str)
    {
      var nameStart := pos;
      SkipName();
      var nameEnd := pos;
      TextSlice(nameStart, nameEnd);
      var value := Get(env, str[nameStart..nameEnd]);
      SimpleSteps(env, Text()[nameStart..nameEnd], Text()[nameEnd..], r);
      if value.Unset? {
        status := Discard(UnknownParam);
      } else {
        Substitute(start, Outside(value.text));
        status := Done;
      }
    }

    /** The operator of a braced reference; the position moves past it. */
    method ReadOperator() returns (r: Result<(Operator, bool, nat)>)
      requires Valid()
      modifies this`pos
      ensures Valid() && Text() == old(Text()) && r == ParseOperator(Text()[old(pos)..])
      ensures r.Ok? ==> pos == old(pos) + r.value.2
    {
      ghost var text := Text();
      assert forall k :: 0 <= k < len ==> str[k] == text[k] && text[k] in text;
      if str[pos] == ':' && str[pos + 1] == '-' {
        pos := pos + 2;
        r := Ok((OpDefault, true, 2));
      } else if str[pos] == ':' && str[pos + 1] == '+' {
        pos := pos + 2;
        r := Ok((OpAlternate, true, 2));
      } else if str[pos] == '-' {
        pos := pos + 1;
        r := Ok((OpDefault, false, 1));
      } else if str[pos] == '+' {
        pos := pos + 1;
        r := Ok((OpAlternate, false, 1));
      } else if str[pos] != '}' && str[pos] != '\0' {
        r := Fail(ExpectedOperator);
      } else {
        r := Ok((OpValue, false, 0));
      }
    }

    /** What the operator puts in place of the reference: the value looked up, or the
        argument where it stands in the buffer. */
    method Choose(value: Value, op: Operator, ignoreEmpty: bool, argStart: nat, argEnd: nat)
      returns (r: Result<Replacement>)
      requires Valid() && argStart <= argEnd <= len && (value.Set? ==> NoNul(value.text))
      ensures r.Fail? ==> Environ.Substitute(value, op, ignoreEmpty, Text()[argStart..argEnd]) == Fail(r.error)
      ensures r.Ok? ==>
        && (r.value.Outside? ==> NoNul(r.value.text))
        && (r.value.Inside? ==> argStart == r.value.from && argEnd == r.value.from + r.value.count)
        && Environ.Substitute(value, op, ignoreEmpty, Text()[argStart..argEnd]) == Ok(Meaning(r.value))
    {
      match op {
        case OpValue =>
          if value.Unset? { return Fail(UnknownParam); }
          return Ok(Outside(value.text));
        case OpDefault =>
          if value.Unset? || (ignoreEmpty && value.text == "") {
            return Ok(Inside(argStart, argEnd - argStart));
          }
          return Ok(Outside(value.text));
        case OpAlternate =>
          if value.Unset? || (ignoreEmpty && value.text == "") { return Ok(Outside("")); }
          return Ok(Inside(argStart, argEnd - argStart));
      }
    }

    /** A part of a braced reference: what stood before it, and between any two earlier
        positions, stands there still. */
    method ExpandPart(env: Table, until: set<char>, ghost start: nat, ghost from: nat, ghost to: nat,
                      ghost part: Result<Scan>)
      returns (status: Status)
      requires Valid() && ValidTable(env) && start <= pos && from <= to <= pos
      requires part == Expand(env, Text()[pos..], until)
      modifies this, str
      ensures str == null || str == old(str) || fresh(str)
      ensures status.Failed? ==> str == null && part == Fail(status.error)
      ensures status.Done? ==>
        && part.Ok? && Valid() && old(pos) <= pos
        && Text()[..start] == old(Text()[..start]) && Text()[from..to] == old(Text()[from..to])
        && Text()[old(pos)..pos] == part.value.out && Text()[pos..] == part.value.rest
      decreases len - pos, 3
    {
      ghost var text, at := Text(), pos;
      status := ExpandUntil(env, until, part);
      if status.Done? {
        After(text[..at], part.value, Text());
        Parts(text, at, Text(), from, to);
        Kept(text, at, Text(), start);
      }
    }

    /** A braced reference at `start`, from its opening brace on. */
    method BracedReference(env: Table, start: nat, ghost r: Result<Scan>) returns (status: Status)
      requires Valid() && ValidTable(env) && pos == start + 1 && IsReference(env, Text(), start, r)
      requires pos < len && Text()[pos] == '{' && (pos + 1 < len ==> Text()[pos + 1] != '}')
      modifies this, str
      ensures Scanned(old(Text()[..start]), r, status)
      ensures str == null || str == old(str) || fresh(str)
      decreases len - pos
    {
      ghost var text := Text();
      IsBraced(env, text, start, r);
      pos := pos + 1;
      assert Text() == text;
      status := BracedName(env, start, r);
    }

    /** The rest of a braced reference from `start`, after its opening brace. */
    method BracedName(env: Table, start: nat, ghost r: Result<Scan>) returns (status: Status)
      requires Valid() && ValidTable(env) && start + 2 == pos && r == Braced(env, Text()[pos..])
      modifies this, str
      ensures Scanned(old(Text()[..start]), r, status)
      ensures str == null || str == old(str) || fresh(str)
      decreases len - pos, 6
    {
      ghost var name := Expand(env, Text()[pos..], NAME_END);
      var nameStart := pos;
      BracedSteps(env, Text()[pos..], r);
      status := ExpandPart(env, NAME_END, start, start, start, name);
      if status.Failed? { return; }
      status := BracedArgument(env, start, nameStart, pos, r);
    }

    /** Once the name is expanded: the operator and its argument. */
    method BracedArgument(env: Table, start: nat, nameStart: nat, nameEnd: nat, ghost r: Result<Scan>)
      returns (status: Status)
      requires Valid() && ValidTable(env) && start < nameStart <= nameEnd == pos
      requires r == Argument(env, Text()[nameStart..nameEnd], Text()[pos..])
      modifies this, str
      ensures Scanned(old(Text()[..start]), r, status)
      ensures str == null || str == old(str) || fresh(str)
      decreases len - pos, 5
    {
      ghost var text := Text();
      ArgumentSteps(env, text[nameStart..nameEnd], text[nameEnd..], r);
      var op := ReadOperator();
      if op.Fail? {
        status := Discard(op.error);
        return;
      }
      TailOfTail(text, nameEnd, op.value.2);
      status := BracedValue(env, start, nameStart, nameEnd, op.value.0, op.value.1, r);
    }

    /** Once the operator is read: its argument, and the value. */
    method BracedValue(env: Table, start: nat, nameStart: nat, nameEnd: nat, op: Operator, ignoreEmpty: bool,
                       ghost r: Result<Scan>)
      returns (status: Status)
      requires Valid() && ValidTable(env) && start < nameStart <= nameEnd <= pos
      requires r == ArgumentFrom(env, Text()[nameStart..nameEnd], op, ignoreEmpty, Text()[pos..])
      modifies this, str
      ensures Scanned(old(Text()[..start]), r, status)
      ensures str == null || str == old(str) || fresh(str)
      decreases len - pos, 4
    {
      var argStart := pos;
      ghost var argument := Expand(env, Text()[pos..], {'}'});
      status := ExpandPart(env, {'}'}, start, nameStart, nameEnd, argument);
      if status.Failed? { return; }
      ClosingBrace(argument.value.rest, Text(), pos);
      status := CloseReference(env, start, nameStart, nameEnd, op, ignoreEmpty, argStart, r);
    }

    /** Once the name and the argument are expanded: the closing brace and the value. */
    method CloseReference(env: Table, start: nat, nameStart: nat, nameEnd: nat,
                          op: Operator, ignoreEmpty: bool, argStart: nat, ghost r: Result<Scan>)
      returns (status: Status)
      requires Valid() && ValidTable(env) && start < nameStart <= nameEnd <= argStart <= pos
      requires pos < len ==> Text()[pos] == '}'
      requires r == Environ.Close(env, Text()[nameStart..nameEnd], op, ignoreEmpty,
                                  Scan(Text()[argStart..pos], Text()[pos..]))
      modifies this, str
      ensures Scanned(old(Text()[..start]), r, status)
      ensures str == null || str == old(str) || fresh(str)
    {
      ghost var text := Text();
      var argEnd := pos;
      assert pos < len ==> str[pos] == text[pos];
      if str[pos] != '}' {
        status := Discard(MismatchedBraces);
        return;
      }
      pos := pos + 1;
      TextSlice(nameStart, nameEnd);
      assert text[argEnd..][1..] == text[pos..];
      var value := Get(env, str[nameStart..nameEnd]);
      var choice := Choose(value, op, ignoreEmpty, argStart, argEnd);
      if choice.Fail? {
        status := Discard(choice.error);
        return;
      }
      Substitute(start, choice.value);
      status := Done;
    }
  }

  /** environ_expand: the whole of `text` expanded, or the error raised. */
  method ExpandString(text: string, env: Table) returns (r: Result<string>)
    requires NoNul(text) && ValidTable(env)
    ensures r == Expansion(env, text)
  {
    var buffer := new Buffer(text);
    assert text[..0] == "" && text[0..] == text;
    var status := buffer.ExpandUntil(env, {}, Expand(env, text, {}));
    if status.Failed? { return Fail(status.error); }
    ghost var scan := Expand(env, text, {}).value;
    assert buffer.Text() == "" + scan.out + scan.rest == scan.out;
    return Ok(buffer.str[..buffer.len]);
  }

  /** What a reference at `start` comes to, told by the characters after its dollar sign. */
  ghost predicate IsReference(env: Table, text: string, start: nat, r: Result<Scan>)
    requires ValidTable(env)
  {
    var at := start + 1;
    at <= |text| && text[start] == '$' &&
    if at < |text| && NameStart(text[at]) then
      var end := at + NameLength(text[at..]);
      r == Simple(env, text[at..end], text[end..])
    else if at + 1 < |text| && text[at] == '{' && text[at + 1] == '}' then r == Ok(Scan("$", text[at + 2..]))
    else if at < |text| && text[at] == '{' then r == Braced(env, text[at + 1..])
    else r == Ok(Scan("$", text[at..]))
  }

  lemma IsName(env: Table, text: string, start: nat, r: Result<Scan>) returns (end: nat)
    requires ValidTable(env) && IsReference(env, text, start, r) && start + 1 < |text| && NameStart(text[start + 1])
    ensures end == start + 1 + NameLength(text[start + 1..])
    ensures r == Simple(env, text[start + 1..end], text[end..])
  {
    end := start + 1 + NameLength(text[start + 1..]);
  }

  lemma IsEscape(env: Table, text: string, start: nat, r: Result<Scan>)
    requires ValidTable(env) && IsReference(env, text, start, r) && start + 2 < |text|
    requires text[start + 1] == '{' && text[start + 2] == '}'
    ensures r == Ok(Scan("$", text[start + 3..]))
  {
  }

  lemma IsBraced(env: Table, text: string, start: nat, r: Result<Scan>)
    requires ValidTable(env) && IsReference(env, text, start, r) && start + 1 < |text| && text[start + 1] == '{'
    requires start + 2 < |text| ==> text[start + 2] != '}'
    ensures r == Braced(env, text[start + 2..])
  {
  }

  lemma IsLone(env: Table, text: string, start: nat, r: Result<Scan>)
    requires ValidTable(env) && IsReference(env, text, start, r)
    requires start + 1 < |text| ==> !NameStart(text[start + 1]) && text[start + 1] != '{'
    ensures start + 1 <= |text| && r == Ok(Scan("$", text[start + 1..]))
    ensures text == text[..start] + "$" + text[start + 1..]
  {
  }

  lemma ReferenceCases(env: Table, text: string, start: nat)
    requires ValidTable(env) && start < |text| && text[start] == '$'
    ensures IsReference(env, text, start, Reference(env, text[start..]))
  {
    var t := text[start..][1..];
    assert t == text[start + 1..];
    if t != "" && NameStart(t[0]) {
      var n := NameLength(t);
      assert t[..n] == text[start + 1..start + 1 + n] && t[n..] == text[start + 1 + n..];
    } else if |t| >= 2 && t[0] == '{' && t[1] == '}' {
      assert t[2..] == text[start + 3..];
    } else if t != "" && t[0] == '{' {
      assert t[1..] == text[start + 2..];
    }
  }

  lemma BracedSteps(env: Table, s: string, r: Result<Scan>)
    requires ValidTable(env) && r == Braced(env, s)
    ensures var name := Expand(env, s, NAME_END);
      r == if name.Fail? then Fail(name.error) else Argument(env, name.value.out, name.value.rest)
  {
  }

  lemma SimpleSteps(env: Table, name: string, rest: string, r: Result<Scan>)
    requires ValidTable(env) && r == Simple(env, name, rest)
    ensures var v := Get(env, name);
      r == if v.Unset? then Fail(UnknownParam) else Ok(Scan(v.text, rest))
  {
  }

  /** A braced reference from its argument on. */
  ghost function ArgumentFrom(env: Table, name: string, op: Operator, ignoreEmpty: bool, s: string): Result<Scan>
    requires ValidTable(env)
  {
    var argument := Expand(env, s, {'}'});
    if argument.Fail? then Fail(argument.error) else Environ.Close(env, name, op, ignoreEmpty, argument.value)
  }

  lemma ArgumentSteps(env: Table, name: string, s: string, r: Result<Scan>)
    requires ValidTable(env) && r == Argument(env, name, s)
    ensures ParseOperator(s).Fail? ==> r == Fail(ParseOperator(s).error)
    ensures ParseOperator(s).Ok? ==>
      var (op, ignoreEmpty, n) := ParseOperator(s).value;
      r == ArgumentFrom(env, name, op, ignoreEmpty, s[n..])
  {
  }

  lemma LongestName(s: string, n: nat)
    requires n <= |s| && forall i :: 0 <= i < n ==> NameChar(s[i])
    requires n < |s| ==> !NameChar(s[n])
    ensures n == NameLength(s)
  {
  }

  lemma After(before: string, scan: Scan, text: string)
    requires text == before + scan.out + scan.rest
    ensures var at := |before + scan.out|;
      at <= |text| && text[..|before|] == before && text[|before|..at] == scan.out && text[at..] == scan.rest
  {
  }

  /** What stood before the argument stands there still once it is expanded. */
  lemma Parts(mid: string, argStart: nat, text: string, from: nat, to: nat)
    requires from <= to <= argStart <= |mid| && argStart <= |text| && text[..argStart] == mid[..argStart]
    ensures text[from..to] == mid[from..to]
  {
    assert text[..argStart][from..to] == mid[..argStart][from..to];
  }

  lemma Kept(mid: string, at: nat, text: string, start: nat)
    requires start <= at <= |mid| && at <= |text| && text[..at] == mid[..at]
    ensures text[..start] == mid[..start]
  {
    assert text[..at][..start] == text[..start] && mid[..at][..start] == mid[..start];
  }

  lemma TailOfTail(text: string, at: nat, n: nat)
    requires at + n <= |text|
    ensures text[at..][n..] == text[at + n..]
  {
  }

  lemma ClosingBrace(rest: string, text: string, at: nat)
    requires at <= |text| && text[at..] == rest && (rest == "" || rest[0] == '}')
    ensures at < |text| ==> text[at] == '}'
  {
  }

  /** Put what was already produced before what a scan will produce. */
  ghost function Prepend(out: string, r: Result<Scan>): Result<Scan> {
    match r
    case Ok(scan) => Ok(Scan(out + scan.out, scan.rest))
    case Fail(e) => Fail(e)
  }

  lemma Prepend0(r: Result<Scan>)
    ensures Prepend("", r) == r
  {
    if r.Ok? { assert "" + r.value.out == r.value.out; }
  }

  lemma PrependTwice(a: string, b: string, r: Result<Scan>)
    ensures Prepend(a, Prepend(b, r)) == Prepend(a + b, r)
  {
    if r.Ok? { assert a + (b + r.value.out) == (a + b) + r.value.out; }
  }

  /** Characters outside references are copied. */
  lemma {:induction false} CopyRun(env: Table, run: string, s: string, until: set<char>)
    requires ValidTable(env) && forall k :: 0 <= k < |run| ==> run[k] != '$' && run[k] !in until
    ensures Expand(env, run + s, until) == Prepend(run, Expand(env, s, until))
  {
    var r := Expand(env, s, until);
    if run == "" {
      Prepend0(r);
      assert run + s == s;
    } else {
      assert (run + s)[1..] == run[1..] + s;
      CopyRun(env, run[1..], s, until);
      PrependTwice([run[0]], run[1..], r);
      assert [run[0]] + run[1..] == run;
    }
  }

  /** Of `text`, what comes before `pos` is `before` and what the scan produced so far;
      scanning the rest gives the rest of the whole result. */
  ghost predicate Progress(env: Table, until: set<char>, before: string, all: Result<Scan>,
                           out: string, text: string, pos: nat)
    requires ValidTable(env)
  {
    && pos <= |text| && text[..pos] == before + out
    && all == Prepend(out, Expand(env, text[pos..], until))
  }

  lemma Skipped(env: Table, until: set<char>, before: string, all: Result<Scan>,
                out: string, text: string, from: nat, pos: nat) returns (now: string)
    requires ValidTable(env) && from <= pos <= |text|
    requires Progress(env, until, before, all, out, text, from)
    requires forall k :: from <= k < pos ==> text[k] != '$' && text[k] !in until
    ensures Progress(env, until, before, all, now, text, pos)
  {
    var run := text[from..pos];
    now := out + run;
    SplitAt(text, from, pos);
    CopyRun(env, run, text[pos..], until);
    PrependTwice(out, run, Expand(env, text[pos..], until));
    Appended(before, out, run);
  }

  lemma SplitAt(text: string, from: nat, pos: nat)
    requires from <= pos <= |text|
    ensures text[..pos] == text[..from] + text[from..pos]
    ensures text[from..] == text[from..pos] + text[pos..]
  {
  }

  lemma Appended(before: string, out: string, run: string)
    ensures (before + out) + run == before + (out + run)
  {
  }

  lemma Stopped(env: Table, until: set<char>, before: string, all: Result<Scan>,
                out: string, text: string, pos: nat)
    requires ValidTable(env) && Progress(env, until, before, all, out, text, pos)
    requires pos < |text| ==> text[pos] in until && text[pos] != '$'
    ensures all == Ok(Scan(out, text[pos..]))
    ensures pos == |before + out| && text == before + out + text[pos..]
  {
    assert out + "" == out;
    assert text == text[..pos] + text[pos..];
  }

  lemma TakeReference(env: Table, out: string, s: string, until: set<char>)
    requires ValidTable(env) && s != "" && s[0] == '$'
    ensures
      var ref, r := Reference(env, s), Prepend(out, Expand(env, s, until));
      if ref.Fail? then r == Fail(ref.error)
      else r == Prepend(out + ref.value.out, Expand(env, ref.value.rest, until))
  {
    var ref := Reference(env, s);
    if ref.Ok? { PrependTwice(out, ref.value.out, Expand(env, ref.value.rest, until)); }
  }

  lemma Joined(text: string, before: string, out: string, more: string, rest: string)
    requires text == (before + out) + more + rest
    ensures var at := |(before + out) + more|;
      at <= |text| && text[..at] == before + (out + more) && text[at..] == rest
  {
  }

  /** A reference is replaced, and the replacement is not scanned again. */
  lemma Replaced(env: Table, until: set<char>, before: string, all: Result<Scan>,
                 out: string, text: string, pos: nat, text': string, ref: Result<Scan>)
    returns (now: string)
    requires ValidTable(env) && Progress(env, until, before, all, out, text, pos)
    requires pos < |text| && text[pos] == '$' && ref == Reference(env, text[pos..])
    requires ref.Ok? ==> text' == text[..pos] + ref.value.out + ref.value.rest
    ensures ref.Fail? ==> all == ref
    ensures ref.Ok? ==>
      && Progress(env, until, before, all, now, text', |text[..pos] + ref.value.out|)
      && |ref.value.rest| < |text| - pos
  {
    var s := text[pos..];
    now := out;
    TakeReference(env, out, s, until);
    if ref.Ok? {
      now := out + ref.value.out;
      Joined(text', before, out, ref.value.out, ref.value.rest);
    }
  }

  /** A value written at `start`, before `end`, leaves what comes before and after. */
  lemma OverwrittenParts(s0: string, s1: string, start: nat, v: string, end: nat, len: nat)
    requires start + |v| <= end <= len < |s0|
    requires s1 == s0[..start] + v + s0[start + |v|..]
    ensures |s1| == |s0| && s1[len] == s0[len]
    ensures s1[..start + |v|] == s0[..start] + v && s1[end..len] == s0[end..len]
  {
  }

  lemma SliceNoNul(s: string, len: nat, from: nat, count: nat)
    requires from + count <= len <= |s| && NoNul(s[..len])
    ensures s[from..from + count] == s[..len][from..from + count] && NoNul(s[from..from + count])
  {
    assert forall k :: from <= k < from + count ==> s[k] in s[..len];
  }

  lemma MovedUp(s0: string, s1: string, end: nat, offset: nat, len: nat)
    requires end <= len && |s0| == len + offset + 1
    requires s1 == s0[..end + offset] + s0[end..end + (len - end + 1)] + s0[end + offset + (len - end + 1)..]
    ensures |s1| == |s0| && s1[..end] == s0[..end] && s1[end + offset..len + offset] == s0[end..len]
    ensures s1[len + offset] == s0[len]
  {
    var moved := s0[end..end + (len - end + 1)];
    assert s1[end + offset..len + offset] == moved[..len - end];
    assert moved[..len - end] == s0[end..len];
  }

  lemma Around(s: string, start: nat, v: string, end: nat, len: nat)
    requires start + |v| == end <= len <= |s| && s[..end] == s[..start] + v
    ensures s[..len] == s[..start] + v + s[end..len]
  {
    assert s[..len] == s[..end] + s[end..len];
  }

  lemma WithoutNul(text: string, start: nat, v: string, end: nat)
    requires NoNul(text) && NoNul(v) && start <= end <= |text|
    ensures NoNul(text[..start] + v + text[end..])
  {
  }

  /** What the old text without NULs became has none either. */
  lemma Spliced(s0: string, s2: string, start: nat, v: string, end: nat, len0: nat)
    requires start <= end <= len0 <= |s0| && NoNul(s0[..len0]) && NoNul(v)
    requires s2 == (s0[..start] + v) + s0[end..len0]
    ensures NoNul(s2)
    ensures s2 == s0[..len0][..start] + v + s0[..len0][end..]
  {
    assert s0[..start] == s0[..len0][..start];
    assert s0[end..len0] == s0[..len0][end..];
    assert forall k :: 0 <= k < start ==> s0[k] in s0[..len0];
    assert forall k :: end <= k < len0 ==> s0[k] in s0[..len0];
  }
}
