/** `Chart`: reading a chart description (columns of numbers, column types,
    names and colours) and assembling it into an X column and line columns.

    The JSON text itself is not modelled. The reader works on already
    decoded tokens: each top-level member is a name with a value that is
    a list of column arrays (`[ "id", numbers... ]`), an object of string
    pairs, or some other value. */
module Charts {
  import opened JavaLang
  import DoubleArrayLists

  /** `Color.TRANSPARENT`. */
  const TRANSPARENT: int := 0

  datatype Column = Column(name: string, colour: int, values: seq<real>, minValue: real, maxValue: real)
  datatype Chart = Chart(x: Column, columns: seq<Column>)

  // ----------------------------------------------------------- input tokens

  /** One `[ "id", numbers... ]` array of the "columns" member. */
  datatype ColumnTokens = ColumnTokens(id: string, numbers: seq<real>)

  datatype JsonValue =
    | ColumnArrays(arrays: seq<ColumnTokens>)
    | StringPairs(pairs: seq<(string, string)>)
    | OtherValue

  datatype Member = Member(name: string, value: JsonValue)

  /** The `Pair<double[], double[]>` stored per column id: the values and
      the `{ min, max }` pair. */
  datatype ColumnData = ColumnData(values: seq<real>, min: real, max: real)

  // ------------------------------------------------------------ map puts

  /** The map left by `put`-ting the entries in order into an empty HashMap. */
  function PutAll<V>(entries: seq<(string, V)>): map<string, V>
    decreases |entries|
  {
    if entries == [] then map[]
    else
      var last := entries[|entries| - 1];
      PutAll(entries[..|entries| - 1])[last.0 := last.1]
  }

  /** The keys of the map are exactly the keys of the entries. */
  lemma {:induction false} PutAllKeys<V>(entries: seq<(string, V)>)
    ensures forall k :: k in PutAll(entries) <==> exists i :: 0 <= i < |entries| && entries[i].0 == k
    decreases |entries|
  {
    if entries != [] {
      var prefix := entries[..|entries| - 1];
      PutAllKeys(prefix);
      assert forall i :: 0 <= i < |prefix| ==> prefix[i] == entries[i];
    }
  }

  /** A later `put` of the same key wins: the value stored for a key is the
      one of its last entry. */
  lemma {:induction false} PutAllLastWins<V>(entries: seq<(string, V)>, i: int)
    requires 0 <= i < |entries|
    requires forall j :: i < j < |entries| ==> entries[j].0 != entries[i].0
    ensures entries[i].0 in PutAll(entries)
    ensures PutAll(entries)[entries[i].0] == entries[i].1
    decreases |entries|
  {
    if i < |entries| - 1 {
      var prefix := entries[..|entries| - 1];
      assert prefix[i] == entries[i];
      PutAllLastWins(prefix, i);
    }
  }

  // ------------------------------------------------------- min/max folds

  /** The running `if (d < min) min = d;` over `s`, starting from `init`. */
  function FoldMin(init: real, s: seq<real>): real
    decreases |s|
  {
    if s == [] then init
    else
      var m := FoldMin(init, s[..|s| - 1]);
      var d := s[|s| - 1];
      if d < m then d else m
  }

  /** The fold is below `init` and every element, and is `init` or one of
      the elements. */
  lemma {:induction false} FoldMinBounds(init: real, s: seq<real>)
    ensures FoldMin(init, s) <= init
    ensures forall k :: 0 <= k < |s| ==> FoldMin(init, s) <= s[k]
    ensures FoldMin(init, s) == init || exists k :: 0 <= k < |s| && s[k] == FoldMin(init, s)
    decreases |s|
  {
    if s != [] {
      var prefix := s[..|s| - 1];
      FoldMinBounds(init, prefix);
      assert forall k :: 0 <= k < |prefix| ==> prefix[k] == s[k];
    }
  }

  /** The running `if (d > max) max = d;` over `s`, starting from `init`. */
  function FoldMax(init: real, s: seq<real>): real
    decreases |s|
  {
    if s == [] then init
    else
      var m := FoldMax(init, s[..|s| - 1]);
      var d := s[|s| - 1];
      if d > m then d else m
  }

  /** The fold is above `init` and every element, and is `init` or one of
      the elements. */
  lemma {:induction false} FoldMaxBounds(init: real, s: seq<real>)
    ensures FoldMax(init, s) >= init
    ensures forall k :: 0 <= k < |s| ==> FoldMax(init, s) >= s[k]
    ensures FoldMax(init, s) == init || exists k :: 0 <= k < |s| && s[k] == FoldMax(init, s)
    decreases |s|
  {
    if s != [] {
      var prefix := s[..|s| - 1];
      FoldMaxBounds(init, prefix);
      assert forall k :: 0 <= k < |prefix| ==> prefix[k] == s[k];
    }
  }

  /** The max accumulator starts at `Double.MIN_VALUE` (first column) or
      `Float.MIN_VALUE` (later columns), the smallest POSITIVE values, not the
      most negative ones: a column with no positive value reports that tiny
      positive number as its maximum. */
  lemma MaxOfNonPositiveColumn(s: seq<real>)
    requires forall k :: 0 <= k < |s| ==> s[k] <= 0.0
    ensures FoldMax(DOUBLE_MIN_VALUE, s) == DOUBLE_MIN_VALUE > 0.0
    ensures FoldMax(FLOAT_MIN_VALUE, s) == FLOAT_MIN_VALUE > 0.0
  {
    MinValuesArePositive();
    FoldMaxBounds(DOUBLE_MIN_VALUE, s);
    FoldMaxBounds(FLOAT_MIN_VALUE, s);
  }

  // ------------------------------------------------------------ readColumns

  /** The data `readColumns` stores for a column: its values and their fold
      from `Double.MAX_VALUE`/`Double.MIN_VALUE` for the first column and
      from `Float.MAX_VALUE`/`Float.MIN_VALUE` for the others. */
  function ColumnOf(t: ColumnTokens, first: bool): ColumnData
  {
    var lo := if first then DOUBLE_MAX_VALUE else FLOAT_MAX_VALUE;
    var hi := if first then DOUBLE_MIN_VALUE else FLOAT_MIN_VALUE;
    ColumnData(t.numbers, FoldMin(lo, t.numbers), FoldMax(hi, t.numbers))
  }

  /** The `put` calls of `readColumns`, in order. */
  function Entries(tokens: seq<ColumnTokens>): (e: seq<(string, ColumnData)>)
    ensures |e| == |tokens|
    ensures forall i :: 0 <= i < |tokens| ==> e[i] == (tokens[i].id, ColumnOf(tokens[i], i == 0))
  {
    seq(|tokens|, i requires 0 <= i < |tokens| => (tokens[i].id, ColumnOf(tokens[i], i == 0)))
  }

  /** Every later column has exactly as many values as the first one. */
  predicate SameLengths(tokens: seq<ColumnTokens>)
  {
    forall i :: 1 <= i < |tokens| ==> |tokens[i].numbers| == |tokens[0].numbers|
  }

  /** What `readColumns` returns or throws: `IllegalStateException` (from the
      reader) when a later column holds more or fewer values than the first,
      otherwise the map from column id to its data. */
  function ColumnsOf(tokens: seq<ColumnTokens>): Result<map<string, ColumnData>>
  {
    if SameLengths(tokens) then Ok(PutAll(Entries(tokens))) else Throw(IllegalState)
  }

  /** `readColumns` gives an empty map for no arrays, throws
      `IllegalStateException` only when some later array differs in length
      from the first, and otherwise maps exactly the ids present, each to
      as many values as the first array holds. */
  lemma ColumnsOfSpec(tokens: seq<ColumnTokens>)
    ensures tokens == [] ==> ColumnsOf(tokens) == Ok(map[])
    ensures ColumnsOf(tokens).Throw? <==> exists i :: 1 <= i < |tokens| && |tokens[i].numbers| != |tokens[0].numbers|
    ensures ColumnsOf(tokens).Throw? ==> ColumnsOf(tokens).error == IllegalState
    ensures ColumnsOf(tokens).Ok? ==>
              forall id :: id in ColumnsOf(tokens).value <==> exists i :: 0 <= i < |tokens| && tokens[i].id == id
    ensures ColumnsOf(tokens).Ok? ==>
              forall id :: id in ColumnsOf(tokens).value ==> |ColumnsOf(tokens).value[id].values| == |tokens[0].numbers|
  {
    var e := Entries(tokens);
    PutAllKeys(e);
    if SameLengths(tokens) {
      var m := PutAll(e);
      forall id | id in m ensures |m[id].values| == |tokens[0].numbers| {
        var i := LastWith(e, id);
        PutAllLastWins(e, i);
      }
      forall id | id in m ensures exists i :: 0 <= i < |tokens| && tokens[i].id == id {
        var i :| 0 <= i < |e| && e[i].0 == id;
      }
    }
  }

  /** The index of the last entry whose key is `k`. */
  function LastWith<V>(entries: seq<(string, V)>, k: string): (i: int)
    requires exists j :: 0 <= j < |entries| && entries[j].0 == k
    ensures 0 <= i < |entries| && entries[i].0 == k
    ensures forall j :: i < j < |entries| ==> entries[j].0 != k
    decreases |entries|
  {
    if entries[|entries| - 1].0 == k then |entries| - 1
    else
      var prefix := entries[..|entries| - 1];
      assert exists j :: 0 <= j < |prefix| && prefix[j].0 == k by {
        var j :| 0 <= j < |entries| && entries[j].0 == k;
        assert prefix[j] == entries[j];
      }
      LastWith(prefix, k)
  }

  /** A column id that appears several times keeps the data of its last array. */
  lemma ColumnsOfLastWins(tokens: seq<ColumnTokens>, i: int)
    requires ColumnsOf(tokens).Ok? && 0 <= i < |tokens|
    requires forall j :: i < j < |tokens| ==> tokens[j].id != tokens[i].id
    ensures tokens[i].id in ColumnsOf(tokens).value
    ensures ColumnsOf(tokens).value[tokens[i].id] == ColumnOf(tokens[i], i == 0)
  {
    PutAllLastWins(Entries(tokens), i);
  }

  // ------------------------------------------------------------ readXColId

  predicate KnownType(t: string)
  {
    t == "x" || t == "line"
  }

  /** The loop of `readXColId` over the `"id": "type"` pairs: it throws at
      the first type other than "x" and "line", and otherwise remembers the
      id of the last "x". */
  function ScanTypes(pairs: seq<(string, string)>): Result<Option<string>>
    decreases |pairs|
  {
    if pairs == [] then Ok(None)
    else
      var last := pairs[|pairs| - 1];
      match ScanTypes(pairs[..|pairs| - 1])
      case Throw(e) => Throw(e)
      case Ok(x) =>
        if last.1 == "x" then Ok(Some(last.0))
        else if last.1 == "line" then Ok(x)
        else Throw(IllegalArgument("unsupported column type: " + last.1))
  }

  /** The scan throws exactly when some type is unknown, with the message
      naming the first unknown type; it finds no x column exactly when
      every type is "line"; and an id it finds belongs to the last "x". */
  lemma {:induction false} ScanTypesSpec(pairs: seq<(string, string)>)
    ensures ScanTypes(pairs).Throw? <==> exists i :: 0 <= i < |pairs| && !KnownType(pairs[i].1)
    ensures ScanTypes(pairs).Throw? ==>
              exists i :: (0 <= i < |pairs| && !KnownType(pairs[i].1) &&
                           ScanTypes(pairs).error == IllegalArgument("unsupported column type: " + pairs[i].1) &&
                           forall j :: 0 <= j < i ==> KnownType(pairs[j].1))
    ensures ScanTypes(pairs) == Ok(None) <==> forall i :: 0 <= i < |pairs| ==> pairs[i].1 == "line"
    ensures ScanTypes(pairs).Ok? && ScanTypes(pairs).value.Some? ==>
              exists i :: (0 <= i < |pairs| && pairs[i] == (ScanTypes(pairs).value.value, "x") &&
                           forall j :: i < j < |pairs| ==> pairs[j].1 != "x")
    decreases |pairs|
  {
    if pairs != [] {
      var prefix := pairs[..|pairs| - 1];
      ScanTypesSpec(prefix);
      assert forall i :: 0 <= i < |prefix| ==> prefix[i] == pairs[i];
    }
  }

  /** An unknown type ends the scan: its exception is the outcome. */
  lemma {:induction false} ScanTypesThrowPersists(pairs: seq<(string, string)>, i: nat)
    requires i <= |pairs| && ScanTypes(pairs[..i]).Throw?
    ensures ScanTypes(pairs) == ScanTypes(pairs[..i])
    decreases |pairs| - i
  {
    if i < |pairs| {
      assert pairs[..i + 1][..i] == pairs[..i];
      ScanTypesThrowPersists(pairs, i + 1);
    } else {
      assert pairs[..i] == pairs;
    }
  }

  /** What `readXColId` returns or throws: `NoSuchElementException` when every
      type is "line". */
  function XColIdOf(pairs: seq<(string, string)>): Result<string>
  {
    match ScanTypes(pairs)
    case Throw(e) => Throw(e)
    case Ok(None) => Throw(NoSuchElement("'x' column is not provided."))
    case Ok(Some(id)) => Ok(id)
  }

  /** `readXColId` throws `IllegalArgumentException` exactly when some type
      is unknown, throws "'x' column is not provided." exactly when every
      type is "line", and otherwise gives the id of the last "x". */
  lemma XColIdOfSpec(pairs: seq<(string, string)>)
    ensures XColIdOf(pairs).Throw? && XColIdOf(pairs).error.IllegalArgument? <==>
              exists i :: 0 <= i < |pairs| && !KnownType(pairs[i].1)
    ensures XColIdOf(pairs) == Throw(NoSuchElement("'x' column is not provided.")) <==>
              forall i :: 0 <= i < |pairs| ==> pairs[i].1 == "line"
    ensures XColIdOf(pairs).Ok? ==>
              exists i :: (0 <= i < |pairs| && pairs[i] == (XColIdOf(pairs).value, "x") &&
                           forall j :: i < j < |pairs| ==> pairs[j].1 != "x")
  {
    ScanTypesSpec(pairs);
  }

  /** `readXColId(reader)`. */
  method ReadXColId(pairs: seq<(string, string)>) returns (r: Result<string>)
    ensures r == XColIdOf(pairs)
  {
    var xColId: Option<string> := None;
    var i := 0;
    while i < |pairs|
      invariant 0 <= i <= |pairs|
      invariant ScanTypes(pairs[..i]) == Ok(xColId)
    {
      var (name, ty) := pairs[i];
      assert pairs[..i + 1][..i] == pairs[..i];
      if ty == "x" {
        xColId := Some(name);
      } else if ty == "line" {
      } else {
        ScanTypesThrowPersists(pairs, i + 1);
        return Throw(IllegalArgument("unsupported column type: " + ty));
      }
      i := i + 1;
    }
    assert pairs[..i] == pairs;
    if xColId.None? {
      return Throw(NoSuchElement("'x' column is not provided."));
    }
    return Ok(xColId.value);
  }

  /** `readMap(reader)`: the string pairs put into a HashMap in order. */
  method ReadMap(pairs: seq<(string, string)>) returns (m: map<string, string>)
    ensures m == PutAll(pairs)
  {
    m := map[];
    var i := 0;
    while i < |pairs|
      invariant 0 <= i <= |pairs|
      invariant m == PutAll(pairs[..i])
    {
      assert pairs[..i + 1][..i] == pairs[..i];
      m := m[pairs[i].0 := pairs[i].1];
      i := i + 1;
    }
    assert pairs[..i] == pairs;
  }

  /** The first data set of `readColumns`: collected in a `DoubleArrayList`,
      because its length is not known in advance, and folded from
      `Double.MAX_VALUE`/`Double.MIN_VALUE`. */
  method ReadFirstColumn(t: ColumnTokens) returns (c: ColumnData)
    ensures c == ColumnOf(t, true)
  {
    var data := new DoubleArrayLists.DoubleArrayList();
    var min := DOUBLE_MAX_VALUE;
    var max := DOUBLE_MIN_VALUE;
    var i := 0;
    while i < |t.numbers|
      invariant 0 <= i <= |t.numbers|
      invariant fresh(data) && fresh(data.elementData) && data.Valid()
      invariant data.Contents() == t.numbers[..i]
      invariant min == FoldMin(DOUBLE_MAX_VALUE, t.numbers[..i])
      invariant max == FoldMax(DOUBLE_MIN_VALUE, t.numbers[..i])
    {
      var d := t.numbers[i];
      assert t.numbers[..i + 1][..i] == t.numbers[..i];
      data.Add(d);
      if d < min { min := d; }
      if d > max { max := d; }
      i := i + 1;
    }
    assert t.numbers[..i] == t.numbers;
    var values := data.ToArray();
    c := ColumnData(values[..], min, max);
  }

  /** A later data set of `readColumns`: exactly `size` values read into an
      array, folded from `Float.MAX_VALUE`/`Float.MIN_VALUE`. The reader
      throws `IllegalStateException` when the array ends early
      (`nextDouble`) or holds more values (`endArray`). */
  method ReadLaterColumn(t: ColumnTokens, size: nat) returns (r: Result<ColumnData>)
    ensures |t.numbers| == size ==> r == Ok(ColumnOf(t, false))
    ensures |t.numbers| != size ==> r == Throw(IllegalState)
  {
    var values := new real[size];
    var min := FLOAT_MAX_VALUE;
    var max := FLOAT_MIN_VALUE;
    var i := 0;
    while i < size
      invariant 0 <= i <= size
      invariant i <= |t.numbers|
      invariant values[..i] == t.numbers[..i]
      invariant min == FoldMin(FLOAT_MAX_VALUE, t.numbers[..i])
      invariant max == FoldMax(FLOAT_MIN_VALUE, t.numbers[..i])
    {
      if i >= |t.numbers| {
        return Throw(IllegalState);
      }
      var v := t.numbers[i];
      assert t.numbers[..i + 1][..i] == t.numbers[..i];
      values[i] := v;
      if v < min { min := v; }
      if v > max { max := v; }
      i := i + 1;
    }
    if |t.numbers| > size {
      return Throw(IllegalState);
    }
    assert t.numbers[..i] == t.numbers;
    assert values[..] == values[..i];
    return Ok(ColumnData(values[..], min, max));
  }

  /** `readColumns(reader)`. */
  method ReadColumns(tokens: seq<ColumnTokens>) returns (r: Result<map<string, ColumnData>>)
    ensures r == ColumnsOf(tokens)
  {
    var columns: map<string, ColumnData> := map[];
    if |tokens| > 0 {
      var c := ReadFirstColumn(tokens[0]);
      columns := columns[tokens[0].id := c];
      assert columns == PutAll(Entries(tokens)[..1]);
      var size := |c.values|;
      var k := 1;
      while k < |tokens|
        invariant 1 <= k <= |tokens|
        invariant size == |tokens[0].numbers|
        invariant forall j :: 1 <= j < k ==> |tokens[j].numbers| == size
        invariant columns == PutAll(Entries(tokens)[..k])
      {
        var next := ReadLaterColumn(tokens[k], size);
        if next.Throw? {
          assert !SameLengths(tokens) by {
            assert |tokens[k].numbers| != |tokens[0].numbers|;
          }
          return Throw(next.error);
        }
        assert Entries(tokens)[..k + 1] == Entries(tokens)[..k] + [Entries(tokens)[k]];
        columns := columns[tokens[k].id := next.value];
        k := k + 1;
      }
      assert Entries(tokens)[..k] == Entries(tokens);
      assert SameLengths(tokens);
    }
    return Ok(columns);
  }

  // ------------------------------------------------------ readChart members

  /** The four locals `readChart` fills from the top-level members; `None`
      is `null`. */
  datatype Fields = Fields(
    columns: Option<map<string, ColumnData>>,
    xColId: Option<string>,
    names: Option<map<string, string>>,
    colours: Option<map<string, string>>)

  const NO_FIELDS: Fields := Fields(None, None, None, None)

  /** One turn of the `switch (reader.nextName())` loop. A known member
      whose value has the wrong shape makes the reader throw
      `IllegalStateException`; an unknown member is skipped. */
  function MemberStep(f: Fields, m: Member): Result<Fields>
  {
    if m.name == "columns" then
      if !m.value.ColumnArrays? then Throw(IllegalState)
      else
        match ColumnsOf(m.value.arrays)
        case Throw(e) => Throw(e)
        case Ok(cm) => Ok(f.(columns := Some(cm)))
    else if m.name == "types" then
      if !m.value.StringPairs? then Throw(IllegalState)
      else
        match XColIdOf(m.value.pairs)
        case Throw(e) => Throw(e)
        case Ok(id) => Ok(f.(xColId := Some(id)))
    else if m.name == "names" then
      if !m.value.StringPairs? then Throw(IllegalState)
      else Ok(f.(names := Some(PutAll(m.value.pairs))))
    else if m.name == "colors" then
      if !m.value.StringPairs? then Throw(IllegalState)
      else Ok(f.(colours := Some(PutAll(m.value.pairs))))
    else
      Ok(f)
  }

  /** The member loop of `readChart` over all members, stopping at the first
      exception. */
  function FieldsOf(members: seq<Member>): Result<Fields>
    decreases |members|
  {
    if members == [] then Ok(NO_FIELDS)
    else
      match FieldsOf(members[..|members| - 1])
      case Throw(e) => Throw(e)
      case Ok(f) => MemberStep(f, members[|members| - 1])
  }

  predicate Mentions(members: seq<Member>, key: string)
  {
    exists i :: 0 <= i < |members| && members[i].name == key
  }

  /** After a successful member loop, each local is non-null exactly when a
      member of that name was present. */
  lemma {:induction false} FieldsPresentIff(members: seq<Member>)
    requires FieldsOf(members).Ok?
    ensures FieldsOf(members).value.columns.Some? <==> Mentions(members, "columns")
    ensures FieldsOf(members).value.xColId.Some? <==> Mentions(members, "types")
    ensures FieldsOf(members).value.names.Some? <==> Mentions(members, "names")
    ensures FieldsOf(members).value.colours.Some? <==> Mentions(members, "colors")
    decreases |members|
  {
    if members != [] {
      var prefix := members[..|members| - 1];
      var last := members[|members| - 1];
      FieldsPresentIff(prefix);
      MemberStepFields(FieldsOf(prefix).value, last);
      MentionsSnoc(members, "columns");
      MentionsSnoc(members, "types");
      MentionsSnoc(members, "names");
      MentionsSnoc(members, "colors");
    }
  }

  /** A successful step fills the local its member names and keeps the others. */
  lemma MemberStepFields(f: Fields, m: Member)
    requires MemberStep(f, m).Ok?
    ensures MemberStep(f, m).value.columns.Some? <==> f.columns.Some? || m.name == "columns"
    ensures MemberStep(f, m).value.xColId.Some? <==> f.xColId.Some? || m.name == "types"
    ensures MemberStep(f, m).value.names.Some? <==> f.names.Some? || m.name == "names"
    ensures MemberStep(f, m).value.colours.Some? <==> f.colours.Some? || m.name == "colors"
  {
  }

  lemma MentionsSnoc(members: seq<Member>, key: string)
    requires members != []
    ensures Mentions(members, key) <==>
              Mentions(members[..|members| - 1], key) || members[|members| - 1].name == key
  {
    var prefix := members[..|members| - 1];
    if Mentions(prefix, key) {
      var i :| 0 <= i < |prefix| && prefix[i].name == key;
      assert members[i] == prefix[i];
    }
    if Mentions(members, key) && members[|members| - 1].name != key {
      var i :| 0 <= i < |members| && members[i].name == key;
      assert prefix[i] == members[i];
    }
  }

  /** A member whose name `readChart` does not know is skipped. */
  lemma UnknownMemberSkipped(members: seq<Member>, m: Member)
    requires m.name != "columns" && m.name != "types" && m.name != "names" && m.name != "colors"
    ensures FieldsOf(members + [m]) == FieldsOf(members)
  {
    assert (members + [m])[..|members|] == members;
  }

  /** An exception ends the member loop: it is the outcome of the whole loop. */
  lemma {:induction false} FieldsOfThrowPersists(members: seq<Member>, i: nat)
    requires i <= |members| && FieldsOf(members[..i]).Throw?
    ensures FieldsOf(members) == FieldsOf(members[..i])
    decreases |members| - i
  {
    if i < |members| {
      assert members[..i + 1][..i] == members[..i];
      FieldsOfThrowPersists(members, i + 1);
    } else {
      assert members[..i] == members;
    }
  }

  /** The member loop of `readChart`. */
  method ReadMembers(members: seq<Member>) returns (r: Result<Fields>)
    ensures r == FieldsOf(members)
  {
    var f := NO_FIELDS;
    var i := 0;
    while i < |members|
      invariant 0 <= i <= |members|
      invariant FieldsOf(members[..i]) == Ok(f)
    {
      var m := members[i];
      assert members[..i + 1][..i] == members[..i];
      if m.name == "columns" {
        if !m.value.ColumnArrays? { FieldsOfThrowPersists(members, i + 1); return Throw(IllegalState); }
        var cm := ReadColumns(m.value.arrays);
        if cm.Throw? { FieldsOfThrowPersists(members, i + 1); return Throw(cm.error); }
        f := f.(columns := Some(cm.value));
      } else if m.name == "types" {
        if !m.value.StringPairs? { FieldsOfThrowPersists(members, i + 1); return Throw(IllegalState); }
        var id := ReadXColId(m.value.pairs);
        if id.Throw? { FieldsOfThrowPersists(members, i + 1); return Throw(id.error); }
        f := f.(xColId := Some(id.value));
      } else if m.name == "names" {
        if !m.value.StringPairs? { FieldsOfThrowPersists(members, i + 1); return Throw(IllegalState); }
        var names := ReadMap(m.value.pairs);
        f := f.(names := Some(names));
      } else if m.name == "colors" {
        if !m.value.StringPairs? { FieldsOfThrowPersists(members, i + 1); return Throw(IllegalState); }
        var colours := ReadMap(m.value.pairs);
        f := f.(colours := Some(colours));
      }
      i := i + 1;
    }
    assert members[..i] == members;
    return Ok(f);
  }

  // ----------------------------------------------------- readChart assembly

  /** A line column can be built: it has a name and a colour that
      `parseColour` (standing for `Color.parseColor`) accepts. */
  predicate LineColumnOk(id: string, names: map<string, string>, colours: map<string, string>,
                         parseColour: string -> Option<int>)
  {
    id in names && id in colours && parseColour(colours[id]).Some?
  }

  /** What building the line column `id` throws, if anything: `names.get`
      gives null (NoSuchElementException), `colours.get` gives null
      (`Color.parseColor` dereferences it), or the colour does not parse. */
  function LineColumnError(id: string, names: map<string, string>, colours: map<string, string>,
                           parseColour: string -> Option<int>): Option<Exception>
  {
    if id !in names then Some(NoSuchElement("no name provided for the column " + id))
    else if id !in colours then Some(NullPointer)
    else if parseColour(colours[id]).None? then Some(IllegalArgument("Unknown color"))
    else None
  }

  /** A line column throws nothing exactly when it can be built, and each
      exception exactly on its own cause. */
  lemma LineColumnErrorSpec(id: string, names: map<string, string>, colours: map<string, string>,
                            parseColour: string -> Option<int>)
    ensures LineColumnError(id, names, colours, parseColour).None? <==> LineColumnOk(id, names, colours, parseColour)
    ensures LineColumnError(id, names, colours, parseColour) == Some(NoSuchElement("no name provided for the column " + id)) <==>
              id !in names
    ensures LineColumnError(id, names, colours, parseColour) == Some(NullPointer) <==> id in names && id !in colours
    ensures LineColumnError(id, names, colours, parseColour) == Some(IllegalArgument("Unknown color")) <==>
              id in names && id in colours && parseColour(colours[id]).None?
  {
  }

  /** Building a line column throws only `NoSuchElementException`,
      `NullPointerException` or `IllegalArgumentException`. */
  lemma LineColumnErrorKinds(id: string, names: map<string, string>, colours: map<string, string>,
                             parseColour: string -> Option<int>)
    ensures LineColumnError(id, names, colours, parseColour).Some? ==>
              var e := LineColumnError(id, names, colours, parseColour).value;
              e.NoSuchElement? || e.NullPointer? || e.IllegalArgument?
  {
  }

  function LineColumn(id: string, cm: map<string, ColumnData>, names: map<string, string>,
                      colours: map<string, string>, parseColour: string -> Option<int>): Column
    requires id in cm && LineColumnOk(id, names, colours, parseColour)
  {
    Column(names[id], parseColour(colours[id]).value, cm[id].values, cm[id].min, cm[id].max)
  }

  /** The x column: named "x", transparent. */
  function XColumn(data: ColumnData): Column
  {
    Column("x", TRANSPARENT, data.values, data.min, data.max)
  }

  predicate Distinct(s: seq<string>)
  {
    forall j, k :: 0 <= j < k < |s| ==> s[j] != s[k]
  }

  /** `entries` is an order in which a HashMap with keys `cm.Keys` may present
      its entry set: every key exactly once. */
  ghost predicate EntryOrder(cm: map<string, ColumnData>, entries: seq<string>)
  {
    && |entries| == |cm|
    && Distinct(entries)
    && (forall id :: id in entries <==> id in cm)
  }

  /** The ids of `entries` other than `xColId`, in order. */
  function LineIds(entries: seq<string>, xColId: string): (ids: seq<string>)
    ensures forall k :: 0 <= k < |ids| ==> ids[k] in entries && ids[k] != xColId
    ensures |ids| <= |entries|
    decreases |entries|
  {
    if entries == [] then []
    else
      var prefix := entries[..|entries| - 1];
      var last := entries[|entries| - 1];
      assert entries == prefix + [last];
      LineIds(prefix, xColId) + (if last == xColId then [] else [last])
  }

  /** Leaving out one id of a repetition-free list shortens it by one
      exactly when the id occurs in it. */
  lemma {:induction false} LineIdsLength(entries: seq<string>, xColId: string)
    requires Distinct(entries)
    ensures |LineIds(entries, xColId)| == |entries| - (if xColId in entries then 1 else 0)
    decreases |entries|
  {
    if entries != [] {
      var prefix := entries[..|entries| - 1];
      assert entries == prefix + [entries[|entries| - 1]];
      LineIdsLength(prefix, xColId);
      if entries[|entries| - 1] == xColId {
        assert xColId !in prefix;
      }
    }
  }

  /** The line columns built from `ids`, in order. */
  function LineColumns(ids: seq<string>, cm: map<string, ColumnData>, names: map<string, string>,
                       colours: map<string, string>, parseColour: string -> Option<int>): (cols: seq<Column>)
    requires LinesOk(ids, cm, names, colours, parseColour)
    ensures |cols| == |ids|
    ensures forall k :: 0 <= k < |ids| ==> cols[k] == LineColumn(ids[k], cm, names, colours, parseColour)
  {
    seq(|ids|, k requires 0 <= k < |ids| => LineColumn(ids[k], cm, names, colours, parseColour))
  }

  /** When the assembly loop gets through: the x column is among the
      columns and every other column has a name and a valid colour. */
  predicate AssemblyOk(cm: map<string, ColumnData>, xColId: string, names: map<string, string>,
                       colours: map<string, string>, parseColour: string -> Option<int>)
  {
    xColId in cm && forall id :: id in cm && id != xColId ==> LineColumnOk(id, names, colours, parseColour)
  }

  /** The HashMap's entry set, in whatever order it presents it: every key
      once, in an order the model does not fix. */
  method EntrySet(cm: map<string, ColumnData>) returns (entries: seq<string>)
    ensures EntryOrder(cm, entries)
  {
    entries := [];
    var remaining := cm.Keys;
    while remaining != {}
      invariant remaining <= cm.Keys
      invariant |entries| + |remaining| == |cm|
      invariant Distinct(entries)
      invariant forall k :: 0 <= k < |entries| ==> entries[k] in cm && entries[k] !in remaining
      invariant forall id :: id in cm && id !in remaining ==> id in entries
      decreases |remaining|
    {
      var id :| id in remaining;
      CardRemove(remaining, id);
      entries := entries + [id];
      remaining := remaining - {id};
    }
  }

  lemma CardRemove<T>(s: set<T>, a: T)
    requires a in s
    ensures |s - {a}| == |s| - 1
  {
    var t := s - {a};
    assert s == t + {a};
  }

  /** The locals of the entry-set loop of `readChart`: the x column found so
      far and the line columns stored so far. */
  datatype FillState = FillState(xCol: Option<Column>, cols: seq<Column>)

  /** One turn of the entry-set loop with `slots` places for line columns:
      the x column is remembered; any other column is built, or its
      exception thrown, and stored in the next free place, which does not
      exist once all `slots` are taken (`ArrayIndexOutOfBoundsException`). */
  function FillStep(st: FillState, id: string, cm: map<string, ColumnData>, xColId: string,
                    names: map<string, string>, colours: map<string, string>,
                    parseColour: string -> Option<int>, slots: nat): Result<FillState>
    requires id in cm
  {
    if id == xColId then Ok(st.(xCol := Some(XColumn(cm[id]))))
    else
      match LineColumnError(id, names, colours, parseColour)
      case Some(e) => Throw(e)
      case None =>
        if |st.cols| >= slots then Throw(ArrayIndexOutOfBounds)
        else Ok(st.(cols := st.cols + [LineColumn(id, cm, names, colours, parseColour)]))
  }

  predicate AllIn(entries: seq<string>, cm: map<string, ColumnData>)
  {
    forall j :: 0 <= j < |entries| ==> entries[j] in cm
  }

  /** The entry-set loop over `entries`, stopping at the first exception. */
  function FillAll(entries: seq<string>, cm: map<string, ColumnData>, xColId: string,
                   names: map<string, string>, colours: map<string, string>,
                   parseColour: string -> Option<int>, slots: nat): Result<FillState>
    requires AllIn(entries, cm)
    decreases |entries|
  {
    if entries == [] then Ok(FillState(None, []))
    else
      var prefix := entries[..|entries| - 1];
      assert forall j :: 0 <= j < |prefix| ==> prefix[j] == entries[j];
      match FillAll(prefix, cm, xColId, names, colours, parseColour, slots)
      case Throw(e) => Throw(e)
      case Ok(st) => FillStep(st, entries[|entries| - 1], cm, xColId, names, colours, parseColour, slots)
  }

  /** Every id of `ids` is a column that can be built as a line column. */
  predicate LinesOk(ids: seq<string>, cm: map<string, ColumnData>, names: map<string, string>,
                    colours: map<string, string>, parseColour: string -> Option<int>)
  {
    forall k :: 0 <= k < |ids| ==> ids[k] in cm && LineColumnOk(ids[k], names, colours, parseColour)
  }

  /** The loop gets through exactly when every column other than the x column
      can be built and the line columns fit into the slots; it then holds
      the line columns in entry order and the x column if it was seen. */
  lemma {:induction false} FillAllOk(entries: seq<string>, cm: map<string, ColumnData>, xColId: string,
                                     names: map<string, string>, colours: map<string, string>,
                                     parseColour: string -> Option<int>, slots: nat)
    requires AllIn(entries, cm)
    ensures FillAll(entries, cm, xColId, names, colours, parseColour, slots).Ok? <==>
              (forall j :: 0 <= j < |entries| && entries[j] != xColId ==> LineColumnOk(entries[j], names, colours, parseColour)) &&
              |LineIds(entries, xColId)| <= slots
    ensures FillAll(entries, cm, xColId, names, colours, parseColour, slots).Ok? ==>
              LinesOk(LineIds(entries, xColId), cm, names, colours, parseColour)
    ensures FillAll(entries, cm, xColId, names, colours, parseColour, slots).Ok? ==>
              FillAll(entries, cm, xColId, names, colours, parseColour, slots).value.cols ==
              LineColumns(LineIds(entries, xColId), cm, names, colours, parseColour)
    ensures FillAll(entries, cm, xColId, names, colours, parseColour, slots).Ok? ==>
              (FillAll(entries, cm, xColId, names, colours, parseColour, slots).value.xCol.Some? <==> xColId in entries)
    ensures FillAll(entries, cm, xColId, names, colours, parseColour, slots).Ok? && xColId in entries ==>
              FillAll(entries, cm, xColId, names, colours, parseColour, slots).value.xCol == Some(XColumn(cm[xColId]))
    decreases |entries|
  {
    if entries != [] {
      var n := |entries| - 1;
      var prefix := entries[..n];
      var last := entries[n];
      assert entries == prefix + [last];
      assert AllIn(prefix, cm);
      FillAllOk(prefix, cm, xColId, names, colours, parseColour, slots);
      LineIdsSnoc(entries, xColId, n);
      assert entries[..n + 1] == entries;
      var lines := LineIds(prefix, xColId);
      if FillAll(prefix, cm, xColId, names, colours, parseColour, slots).Ok? && last != xColId &&
         LineColumnOk(last, names, colours, parseColour) && |lines| < slots {
        LineColumnsSnoc(lines, last, cm, names, colours, parseColour);
      }
    }
  }

  /** Each exception of the loop is that of a column that cannot be built,
      or the missing slot of a line column beyond the `slots`. */
  lemma {:induction false} FillAllError(entries: seq<string>, cm: map<string, ColumnData>, xColId: string,
                                        names: map<string, string>, colours: map<string, string>,
                                        parseColour: string -> Option<int>, slots: nat)
    requires AllIn(entries, cm)
    requires FillAll(entries, cm, xColId, names, colours, parseColour, slots).Throw?
    ensures var e := FillAll(entries, cm, xColId, names, colours, parseColour, slots).error;
            (e == ArrayIndexOutOfBounds && |LineIds(entries, xColId)| > slots) ||
            (exists j :: 0 <= j < |entries| && entries[j] != xColId &&
                         LineColumnError(entries[j], names, colours, parseColour) == Some(e))
    decreases |entries|
  {
    var n := |entries| - 1;
    var prefix := entries[..n];
    assert AllIn(prefix, cm);
    LineIdsSnoc(entries, xColId, n);
    assert entries[..n + 1] == entries;
    if FillAll(prefix, cm, xColId, names, colours, parseColour, slots).Throw? {
      FillAllError(prefix, cm, xColId, names, colours, parseColour, slots);
      var e := FillAll(entries, cm, xColId, names, colours, parseColour, slots).error;
      if !(e == ArrayIndexOutOfBounds && |LineIds(prefix, xColId)| > slots) {
        var j :| 0 <= j < |prefix| && prefix[j] != xColId &&
                 LineColumnError(prefix[j], names, colours, parseColour) == Some(e);
        assert entries[j] == prefix[j];
      }
    } else {
      FillAllOk(prefix, cm, xColId, names, colours, parseColour, slots);
    }
  }

  lemma {:induction false} FillAllThrowPersists(entries: seq<string>, i: nat, cm: map<string, ColumnData>,
                                                xColId: string, names: map<string, string>,
                                                colours: map<string, string>,
                                                parseColour: string -> Option<int>, slots: nat)
    requires AllIn(entries, cm) && i <= |entries|
    requires FillAll(entries[..i], cm, xColId, names, colours, parseColour, slots).Throw?
    ensures FillAll(entries, cm, xColId, names, colours, parseColour, slots) ==
              FillAll(entries[..i], cm, xColId, names, colours, parseColour, slots)
    decreases |entries| - i
  {
    if i < |entries| {
      assert entries[..i + 1][..i] == entries[..i];
      FillAllThrowPersists(entries, i + 1, cm, xColId, names, colours, parseColour, slots);
    } else {
      assert entries[..i] == entries;
    }
  }

  /** The loop over the entry set of `readChart` (lines 117-132), visiting
      the columns in the order `entries` and filling `cols`. An exception
      stops the loop and is returned in `error`; `colIdx` is the number of
      line columns stored. */
  method FillColumns(cm: map<string, ColumnData>, xColId: string, names: map<string, string>,
                     colours: map<string, string>, parseColour: string -> Option<int>,
                     entries: seq<string>, cols: array<Column>)
    returns (error: Option<Exception>, xCol: Option<Column>, colIdx: nat)
    requires AllIn(entries, cm)
    modifies cols
    ensures error.Some? <==> FillAll(entries, cm, xColId, names, colours, parseColour, cols.Length).Throw?
    ensures error.Some? ==> error.value == FillAll(entries, cm, xColId, names, colours, parseColour, cols.Length).error
    ensures error.None? ==>
              colIdx <= cols.Length &&
              FillAll(entries, cm, xColId, names, colours, parseColour, cols.Length).value == FillState(xCol, cols[..colIdx])
  {
    xCol := None;
    colIdx := 0;
    var i := 0;
    while i < |entries|
      invariant 0 <= i <= |entries| && colIdx <= cols.Length
      invariant FillAll(entries[..i], cm, xColId, names, colours, parseColour, cols.Length) == Ok(FillState(xCol, cols[..colIdx]))
    {
      var id := entries[i];
      var data := cm[id];
      assert entries[..i + 1][..i] == entries[..i];
      if id == xColId {
        xCol := Some(XColumn(data));
      } else {
        error := LineColumnError(id, names, colours, parseColour);
        if error.Some? {
          FillAllThrowPersists(entries, i + 1, cm, xColId, names, colours, parseColour, cols.Length);
          return;
        }
        var colour := parseColour(colours[id]);
        if colIdx >= cols.Length {
          FillAllThrowPersists(entries, i + 1, cm, xColId, names, colours, parseColour, cols.Length);
          error := Some(ArrayIndexOutOfBounds);
          return;
        }
        ghost var before := cols[..colIdx];
        cols[colIdx] := Column(names[id], colour.value, data.values, data.min, data.max);
        assert cols[..colIdx + 1] == before + [LineColumn(id, cm, names, colours, parseColour)];
        colIdx := colIdx + 1;
      }
      i := i + 1;
    }
    assert entries[..i] == entries;
    error := None;
  }

  lemma LineIdsSnoc(entries: seq<string>, xColId: string, i: int)
    requires 0 <= i < |entries|
    ensures entries[..i + 1] == entries[..i] + [entries[i]]
    ensures LineIds(entries[..i + 1], xColId) ==
              LineIds(entries[..i], xColId) + (if entries[i] == xColId then [] else [entries[i]])
  {
    assert entries[..i + 1][..i] == entries[..i];
  }

  lemma LineColumnsSnoc(ids: seq<string>, id: string, cm: map<string, ColumnData>, names: map<string, string>,
                        colours: map<string, string>, parseColour: string -> Option<int>)
    requires LinesOk(ids, cm, names, colours, parseColour)
    requires id in cm && LineColumnOk(id, names, colours, parseColour)
    ensures LinesOk(ids + [id], cm, names, colours, parseColour)
    ensures LineColumns(ids + [id], cm, names, colours, parseColour) ==
              LineColumns(ids, cm, names, colours, parseColour) + [LineColumn(id, cm, names, colours, parseColour)]
  {
    var ids' := ids + [id];
    assert forall k :: 0 <= k < |ids| ==> ids'[k] == ids[k];
  }

  /** With the entry-set order and `|cm| - 1` slots, the loop gets through
      exactly when the assembly conditions hold. */
  lemma FillAllAssemblyOk(cm: map<string, ColumnData>, xColId: string, names: map<string, string>,
                          colours: map<string, string>, parseColour: string -> Option<int>,
                          entries: seq<string>)
    requires EntryOrder(cm, entries) && |cm| >= 1
    ensures AllIn(entries, cm)
    ensures FillAll(entries, cm, xColId, names, colours, parseColour, |cm| - 1).Ok? <==>
              AssemblyOk(cm, xColId, names, colours, parseColour)
    ensures |LineIds(entries, xColId)| <= |cm| - 1 <==> xColId in cm
  {
    assert AllIn(entries, cm);
    FillAllOk(entries, cm, xColId, names, colours, parseColour, |cm| - 1);
    LineIdsLength(entries, xColId);
    if AssemblyOk(cm, xColId, names, colours, parseColour) {
      forall j | 0 <= j < |entries| && entries[j] != xColId
        ensures LineColumnOk(entries[j], names, colours, parseColour)
      {
        assert entries[j] in entries;
      }
    }
    if FillAll(entries, cm, xColId, names, colours, parseColour, |cm| - 1).Ok? {
      forall id | id in cm && id != xColId
        ensures LineColumnOk(id, names, colours, parseColour)
      {
        var j :| 0 <= j < |entries| && entries[j] == id;
      }
    }
  }

  /** `readChart` from line 114 on, visiting the columns in the entry-set
      order `entries`: the array of `columns.size() - 1` line columns, the
      loop that fills it, the final count check, and the chart. The x
      column is named "x" and is transparent; each other column keeps its
      name, parsed colour and data, in entry-set order. */
  method Assemble(cm: map<string, ColumnData>, xColId: string, names: map<string, string>,
                  colours: map<string, string>, parseColour: string -> Option<int>,
                  entries: seq<string>)
    returns (r: Result<Chart>)
    requires EntryOrder(cm, entries)
    ensures r.Ok? <==> AssemblyOk(cm, xColId, names, colours, parseColour)
    ensures r.Ok? ==>
              r.value == Chart(XColumn(cm[xColId]), LineColumns(LineIds(entries, xColId), cm, names, colours, parseColour))
    ensures r == Throw(NegativeArraySize) <==> |cm| == 0
    ensures r == Throw(ArrayIndexOutOfBounds) ==> xColId !in cm
    ensures r.Throw? && !r.error.NegativeArraySize? && !r.error.ArrayIndexOutOfBounds? ==>
              exists id :: id in cm && id != xColId && LineColumnError(id, names, colours, parseColour) == Some(r.error)
    ensures r.Throw? ==> r.error != AssertionError
  {
    if |cm| - 1 < 0 {
      return Throw(NegativeArraySize);
    }
    var cols := new Column[|cm| - 1](_ => XColumn(ColumnData([], 0.0, 0.0)));
    FillAllAssemblyOk(cm, xColId, names, colours, parseColour, entries);
    var error, xCol, colIdx := FillColumns(cm, xColId, names, colours, parseColour, entries, cols);
    if error.Some? {
      FillAllError(entries, cm, xColId, names, colours, parseColour, cols.Length);
      if error.value != ArrayIndexOutOfBounds {
        var j :| 0 <= j < |entries| && entries[j] != xColId &&
                 LineColumnError(entries[j], names, colours, parseColour) == error;
        assert entries[j] in cm;
        LineColumnErrorKinds(entries[j], names, colours, parseColour);
      }
      return Throw(error.value);
    }
    FillAllOk(entries, cm, xColId, names, colours, parseColour, cols.Length);
    ghost var lines := LineColumns(LineIds(entries, xColId), cm, names, colours, parseColour);
    assert cols[..colIdx] == lines;
    assert colIdx == |cm| - 1 by {
      LineIdsLength(entries, xColId);
    }
    if colIdx != |cm| - 1 {
      assert false;
      return Throw(AssertionError);
    }
    assert cols[..] == cols[..colIdx];
    r := Ok(Chart(xCol.value, cols[..]));
  }

  /** `readChart(reader)`: the member loop, the four presence checks, then
      the assembly. */
  method ReadChart(members: seq<Member>, parseColour: string -> Option<int>)
    returns (r: Result<Chart>)
    ensures FieldsOf(members).Throw? ==> r == Throw(FieldsOf(members).error)
    ensures FieldsOf(members).Ok? && !Mentions(members, "columns") ==>
              r == Throw(NoSuchElement("'columns' object was not provided."))
    ensures FieldsOf(members).Ok? && Mentions(members, "columns") && !Mentions(members, "types") ==>
              r == Throw(NoSuchElement("'types' object was not provided."))
    ensures FieldsOf(members).Ok? && Mentions(members, "columns") && Mentions(members, "types") &&
            !Mentions(members, "names") ==>
              r == Throw(NoSuchElement("'names' object was not provided."))
    ensures FieldsOf(members).Ok? && Mentions(members, "columns") && Mentions(members, "types") &&
            Mentions(members, "names") && !Mentions(members, "colors") ==>
              r == Throw(NoSuchElement("'colours' object was not provided."))
    ensures r.Ok? <==>
              FieldsOf(members).Ok? &&
              var f := FieldsOf(members).value;
              f.columns.Some? && f.xColId.Some? && f.names.Some? && f.colours.Some? &&
              AssemblyOk(f.columns.value, f.xColId.value, f.names.value, f.colours.value, parseColour)
    ensures r.Ok? ==>
              var f := FieldsOf(members).value;
              r.value.x == XColumn(f.columns.value[f.xColId.value]) &&
              |r.value.columns| == |f.columns.value| - 1
    ensures r.Ok? ==>
              var f := FieldsOf(members).value;
              exists entries :: EntryOrder(f.columns.value, entries) &&
                r.value == Chart(XColumn(f.columns.value[f.xColId.value]),
                                 LineColumns(LineIds(entries, f.xColId.value), f.columns.value,
                                             f.names.value, f.colours.value, parseColour))
    ensures FieldsOf(members).Ok? ==>
              var f := FieldsOf(members).value;
              f.columns.Some? && f.xColId.Some? && f.names.Some? && f.colours.Some? ==>
              (r == Throw(NegativeArraySize) <==> |f.columns.value| == 0) &&
              (r == Throw(ArrayIndexOutOfBounds) ==> f.xColId.value !in f.columns.value) &&
              (r.Throw? && !r.error.NegativeArraySize? && !r.error.ArrayIndexOutOfBounds? ==>
                 exists id :: id in f.columns.value && id != f.xColId.value &&
                   LineColumnError(id, f.names.value, f.colours.value, parseColour) == Some(r.error))
    ensures FieldsOf(members).Ok? && r.Throw? ==> r.error != AssertionError
  {
    var fr := ReadMembers(members);
    if fr.Throw? {
      return Throw(fr.error);
    }
    FieldsPresentIff(members);
    var f := fr.value;
    if f.columns.None? {
      return Throw(NoSuchElement("'columns' object was not provided."));
    }
    if f.xColId.None? {
      return Throw(NoSuchElement("'types' object was not provided."));
    }
    if f.names.None? {
      return Throw(NoSuchElement("'names' object was not provided."));
    }
    if f.colours.None? {
      return Throw(NoSuchElement("'colours' object was not provided."));
    }
    var cm := f.columns.value;
    var entries := EntrySet(cm);
    r := Assemble(cm, f.xColId.value, f.names.value, f.colours.value, parseColour, entries);
    if r.Ok? {
      assert xColIdIn: f.xColId.value in entries;
      LineIdsLength(entries, f.xColId.value);
    }
  }
}
