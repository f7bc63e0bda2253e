/**
 * The `TASK` table of tasks/task.js: the keys 0, 1 and 2 name tasks, and
 * the table also holds its two functions under their own names. Property
 * keys are strings: `toTask` looks its argument up by its decimal string,
 * and `toInt` answers with the key, a string, of the first entry equal to
 * its argument in `Object.keys` order (integer keys ascending, then the
 * others in insertion order).
 */
module TaskNames {
  import opened JsArrays

  /** A property value: a task name, or one of the two functions. */
  datatype Entry = Name(name: string) | Function(fn: string)

  datatype Property = Property(key: string, value: Entry)

  /** The table in `Object.keys` order. */
  const Table: seq<Property> := [
    Property("0", Name("IDLE")),
    Property("1", Name("RETURN_HOME")),
    Property("2", Name("MOVE_TO")),
    Property("toInt", Function("toInt")),
    Property("toTask", Function("toTask"))
  ]

  function HasKey(key: string): Property -> bool
  {
    (p: Property) => p.key == key
  }

  function HasValue(e: Entry): Property -> bool
  {
    (p: Property) => p.value == e
  }

  /** `TASK[key]`: the value under that property key, `undefined` when there is none. */
  function Lookup(key: string): (r: Option<Entry>)
    ensures r.Some? <==> exists k :: 0 <= k < |Table| && Table[k].key == key
  {
    match Find(Table, HasKey(key))
    case Some(p) => Some(p.value)
    case None => None
  }

  function Digit(d: nat): char
    requires d < 10
  {
    "0123456789"[d]
  }

  /** The decimal string of a natural number, as `String(n)` writes it. */
  function Decimal(n: nat): (s: string)
    ensures |s| >= 1
    ensures forall k :: 0 <= k < |s| ==> '0' <= s[k] <= '9'
    decreases n
  {
    if n < 10 then [Digit(n)] else Decimal(n / 10) + [Digit(n % 10)]
  }

  /** The string a number becomes as a property key. */
  function KeyOf(n: int): string
  {
    if n < 0 then "-" + Decimal(-n) else Decimal(n)
  }

  /** `toTask(n)`: `TASK[n]`. */
  function ToTask(n: int): Option<Entry>
  {
    Lookup(KeyOf(n))
  }

  /** The keys are pairwise distinct: each names one property. */
  lemma KeysDistinct()
    ensures forall i, j :: 0 <= i < j < |Table| ==> Table[i].key != Table[j].key
  {
    assert Table[0].key[0] == '0' && Table[1].key[0] == '1' && Table[2].key[0] == '2';
    assert Table[3].key[0] == 't' && Table[4].key[0] == 't';
    assert Table[3].key[2] == 'I' && Table[4].key[2] == 'T';
  }

  /** Every entry is found under its own key. */
  lemma LookupEntry(i: nat)
    requires i < |Table|
    ensures Lookup(Table[i].key) == Some(Table[i].value)
  {
    KeysDistinct();
  }

  /** `toInt(task)`: the key of the first entry equal to `task`, or `undefined`. */
  function ToInt(task: Entry): (r: Option<string>)
    ensures r.Some? ==> Lookup(r.value) == Some(task)
    ensures r.None? <==> forall k :: 0 <= k < |Table| ==> Table[k].value != task
  {
    var i := FindIndex(Table, HasValue(task));
    if i == -1 then None
    else
      LookupEntry(i);
      Some(Table[i].key)
  }

  /** A number's key is one character only below ten, so only 0, 1 and 2 hit a task name. */
  lemma {:induction false} DecimalLong(n: nat)
    requires n >= 10
    ensures |Decimal(n)| >= 2
  {
  }

  /** The three task names. */
  lemma ToTaskNames()
    ensures ToTask(0) == Some(Name("IDLE"))
    ensures ToTask(1) == Some(Name("RETURN_HOME"))
    ensures ToTask(2) == Some(Name("MOVE_TO"))
  {
    assert KeyOf(0) == Table[0].key;
    assert KeyOf(1) == Table[1].key;
    assert KeyOf(2) == Table[2].key;
    LookupEntry(0);
    LookupEntry(1);
    LookupEntry(2);
  }

  /** Every other number is `undefined`, negative ones and the long ones alike. */
  lemma ToTaskOthers(n: int)
    requires n != 0 && n != 1 && n != 2
    ensures ToTask(n) == None
  {
    var key := KeyOf(n);
    if n < 0 {
      assert key[0] == '-';
    } else if n >= 10 {
      DecimalLong(n);
    } else {
      assert key == [Digit(n)];
    }
    forall k | 0 <= k < |Table|
      ensures Table[k].key != key
    {
      if k < 3 {
        assert |Table[k].key| == 1 && '0' <= Table[k].key[0] <= '2';
      } else {
        assert Table[k].key[0] == 't';
        assert n >= 0 ==> '0' <= key[0] <= '9';
      }
    }
  }

  /** `toInt` of each name is its key as a string; `ToTaskNames` maps that key's number back. */
  lemma ToIntNames()
    ensures ToInt(Name("IDLE")) == Some("0")
    ensures ToInt(Name("RETURN_HOME")) == Some("1")
    ensures ToInt(Name("MOVE_TO")) == Some("2")
  {
    ToIntAt(0);
    assert Table[0].value == Name("IDLE") && Table[0].key == "0";
    ToIntAt(1);
    assert Table[1].value == Name("RETURN_HOME") && Table[1].key == "1";
    ToIntAt(2);
    assert Table[2].value == Name("MOVE_TO") && Table[2].key == "2";
  }

  /** The first three entries are distinct names, so `toInt` finds each at its own index. */
  lemma ToIntAt(i: nat)
    requires i < 3
    ensures ToInt(Table[i].value) == Some(Table[i].key)
  {
    var names := ["IDLE", "RETURN_HOME", "MOVE_TO"];
    assert |names[0]| == 4 && |names[1]| == 11 && |names[2]| == 7;
    assert forall k :: 0 <= k < 3 ==> Table[k].value == Name(names[k]);
    assert FindIndex(Table, HasValue(Table[i].value)) == i;
  }

  /** A name outside the table has no key. */
  lemma ToIntUnknown(name: string)
    requires name != "IDLE" && name != "RETURN_HOME" && name != "MOVE_TO"
    ensures ToInt(Name(name)) == None
  {
    assert forall k :: 0 <= k < |Table| ==> Table[k].value != Name(name);
  }
}
