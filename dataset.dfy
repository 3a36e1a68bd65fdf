/** The dataset entity: a named collection of records, and its by-name query. */
module DataSetDto {
  import opened Wrappers
  import opened Queries

  /** The column values of one dataset row. */
  datatype DataSetRow = DataSetRow(id: int, name: Option<string>, displayName: Option<string>, agencyId: int)

  /** The key a dataset table is ordered by. */
  function DataSetId(d: DataSetRow): int { d.id }

  /** DataSet.getDataSetByName: the datasets whose name equals `name`. */
  function DataSetByNameQuery(datasets: seq<DataSetRow>, name: string): (r: seq<DataSetRow>)
    ensures forall d :: d in r <==> d in datasets && d.name == Some(name)
  {
    Filter(datasets, (d: DataSetRow) => d.name == Some(name))
  }

  /** The decimal digit for 0 <= d < 10. */
  function DigitChar(d: nat): char
    requires d < 10
  {
    "0123456789"[d]
  }

  /** Integer.toString for a non-negative value. */
  function Digits(n: nat): string
  {
    if n < 10 then [DigitChar(n)] else Digits(n / 10) + [DigitChar(n % 10)]
  }

  /** Integer.toString */
  function Decimal(n: int): string {
    if n < 0 then "-" + Digits(-n) else Digits(n)
  }

  predicate IsDigit(c: char) { '0' <= c <= '9' }

  function DigitValue(c: char): nat
    requires IsDigit(c)
  {
    c as int - '0' as int
  }

  predicate AllDigits(s: string) { forall i :: 0 <= i < |s| ==> IsDigit(s[i]) }

  /** The value a run of decimal digits denotes; the empty run denotes 0. */
  function DigitsValue(s: string): nat
    requires AllDigits(s)
  {
    if s == [] then 0 else DigitsValue(s[..|s| - 1]) * 10 + DigitValue(s[|s| - 1])
  }

  /** The value of an optionally signed decimal numeral. */
  function DecimalValue(s: string): int
    requires s != [] && (s[0] == '-' || IsDigit(s[0]))
    requires AllDigits(s[1..])
  {
    if s[0] == '-' then 0 - DigitsValue(s[1..]) else DigitsValue(s)
  }

  lemma {:induction false} DigitsRoundTrip(n: nat)
    ensures |Digits(n)| > 0 && AllDigits(Digits(n))
    ensures DigitsValue(Digits(n)) == n
  {
    if n >= 10 {
      DigitsRoundTrip(n / 10);
      var s := Digits(n);
      assert s[..|s| - 1] == Digits(n / 10);
      assert AllDigits(s);
    }
  }

  /** The numbers toString prints are decimal numerals that read back to the same value. */
  lemma DecimalRoundTrip(n: int)
    ensures Decimal(n) != [] && (Decimal(n)[0] == '-' || IsDigit(Decimal(n)[0]))
    ensures AllDigits(Decimal(n)[1..])
    ensures DecimalValue(Decimal(n)) == n
  {
    var s := Decimal(n);
    if n < 0 {
      var d := Digits(-n);
      DigitsRoundTrip(-n);
      assert s == "-" + d;
      assert s[1..] == d;
      assert DecimalValue(s) == 0 - DigitsValue(d);
    } else {
      var d := Digits(n);
      DigitsRoundTrip(n);
      assert s == d;
      assert IsDigit(s[0]);
      assert AllDigits(s[1..]) by {
        forall i | 0 <= i < |s[1..]| ensures IsDigit(s[1..][i]) {
          assert s[1..][i] == s[i + 1];
        }
      }
    }
  }

  /** String.valueOf of a nullable string. */
  function Text(s: Option<string>): string {
    if s.None? then "null" else s.value
  }

  /** A DataSet entity object; its generated id is assigned by the store. */
  class DataSet {
    var id: int
    var name: Option<string>
    var displayName: Option<string>
    var agencyId: int

    /** The values this object would be written to the dataset table with. */
    function Row(): DataSetRow
      reads this
    {
      DataSetRow(id, name, displayName, agencyId)
    }

    /** new DataSet(): every field at its Java default. */
    constructor ()
      ensures Row() == DataSetRow(0, None, None, 0)
    {
      id, name, displayName, agencyId := 0, None, None, 0;
    }

    method WithId(id: int) returns (r: DataSet)
      modifies this
      ensures r == this && Row() == old(Row()).(id := id)
    {
      this.id := id;
      r := this;
    }

    method WithName(name: Option<string>) returns (r: DataSet)
      modifies this
      ensures r == this && Row() == old(Row()).(name := name)
    {
      this.name := name;
      r := this;
    }

    method WithDisplayName(displayName: Option<string>) returns (r: DataSet)
      modifies this
      ensures r == this && Row() == old(Row()).(displayName := displayName)
    {
      this.displayName := displayName;
      r := this;
    }

    method WithAgencyId(agencyId: int) returns (r: DataSet)
      modifies this
      ensures r == this && Row() == old(Row()).(agencyId := agencyId)
    {
      this.agencyId := agencyId;
      r := this;
    }

    /** Reports the id, the name, the display name and the agency id, in that order. */
    function ToString(): (s: string)
      reads this
      ensures var head := "DataSet{id=" + Decimal(id) + ", name='";
              |head| <= |s| && s[..|head|] == head
      ensures var tail := ", agencyId=" + Decimal(agencyId) + "}";
              |tail| <= |s| && s[|s| - |tail|..] == tail
    {
      var head := "DataSet{id=" + Decimal(id) + ", name='";
      var middle := Text(name) + "', displayName='" + Text(displayName) + "'";
      var tail := ", agencyId=" + Decimal(agencyId) + "}";
      assert (head + middle + tail)[..|head|] == head;
      assert (head + middle + tail)[|head + middle|..] == tail;
      head + middle + tail
    }
  }
}
