/**
 * The entity identity builders of entity.py: the unique id, the entity id
 * and the display name of a sensor, built from the config entry id, the
 * device's "cups" identifier and the sensor's type (such as
 * "historical-consumption"). Case mapping is ASCII only.
 */
module Entity {
  import opened Wrappers
  import opened Text

  const DOMAIN: string := "ideenergy"

  /**
   * `dict(device_info["identifiers"])["cups"]`: the value paired with the
   * last "cups" key, as building a dict keeps the last pair for a key; None
   * where Python raises KeyError.
   */
  function Cups(ids: seq<(string, string)>): (r: Option<string>)
    ensures r.None? <==> forall i :: 0 <= i < |ids| ==> ids[i].0 != "cups"
  {
    if ids == [] then None
    else if ids[|ids| - 1].0 == "cups" then Some(ids[|ids| - 1].1)
    else
      var init := ids[..|ids| - 1];
      assert forall i :: 0 <= i < |init| ==> init[i] == ids[i];
      Cups(init)
  }

  /** The cups found is the value of a "cups" pair that no later pair overrides. */
  lemma {:induction false} CupsIsLastPair(ids: seq<(string, string)>)
    requires Cups(ids).Some?
    ensures exists i :: 0 <= i < |ids| && ids[i] == ("cups", Cups(ids).value) &&
                        forall j :: i < j < |ids| ==> ids[j].0 != "cups"
  {
    var n := |ids|;
    if ids[n - 1].0 != "cups" {
      var init := ids[..n - 1];
      assert Cups(ids) == Cups(init);
      CupsIsLastPair(init);
      var i :| 0 <= i < |init| && init[i] == ("cups", Cups(init).value) &&
               forall j :: i < j < |init| ==> init[j].0 != "cups";
      assert ids[i] == init[i];
      forall j | i < j < n ensures ids[j].0 != "cups" {
        if j < n - 1 {
          assert ids[j] == init[j];
        }
      }
    } else {
      assert ids[n - 1] == ("cups", Cups(ids).value);
    }
  }

  /** `_build_entity_unique_id`: entry id, cups and sensor type joined by "-", lower-cased. */
  function UniqueId(entryId: string, ids: seq<(string, string)>, sensorType: string): (r: Option<string>)
    ensures r.Some? <==> Cups(ids).Some?
    ensures r.Some? ==>
      r.value == Lower(entryId) + "-" + Lower(Cups(ids).value) + "-" + Lower(sensorType) && IsLower(r.value)
  {
    match Cups(ids)
    case None => None
    case Some(cups) =>
      LowerAppend(entryId, "-");
      LowerAppend(entryId + "-", cups);
      LowerAppend(entryId + "-" + cups, "-");
      LowerAppend(entryId + "-" + cups + "-", sensorType);
      assert Lower("-") == "-";
      Some(Lower(entryId + "-" + cups + "-" + sensorType))
  }

  /**
   * `_build_entity_entity_id`: the platform, a dot and the slug of
   * "ideenergy_<cups>_<type>", lower-cased. `slugify` belongs to Home
   * Assistant and is a parameter here.
   */
  function EntityId(ids: seq<(string, string)>, platform: string, sensorType: string, slugify: string -> string)
    : (r: Option<string>)
    ensures r.Some? <==> Cups(ids).Some?
    ensures r.Some? ==>
      var prefix := Lower(platform) + ".";
      |prefix| <= |r.value| && r.value[..|prefix|] == prefix &&
      r.value[|prefix|..] == Lower(slugify(DOMAIN + "_" + Cups(ids).value + "_" + sensorType))
  {
    match Cups(ids)
    case None => None
    case Some(cups) =>
      var slug := slugify(DOMAIN + "_" + cups + "_" + sensorType);
      LowerAppend(platform, ".");
      LowerAppend(platform + ".", slug);
      assert Lower(".") == ".";
      Some(Lower(platform + "." + slug))
  }

  /** str.split(sep): the pieces between separators, at least one. */
  function Split(s: string, sep: char): (r: seq<string>)
    ensures |r| == Count(s, sep) + 1
    ensures forall i :: 0 <= i < |r| ==> sep !in r[i]
  {
    if s == [] then [[]]
    else
      var rest := Split(s[1..], sep);
      if s[0] == sep then [[]] + rest
      else
        assert sep !in [s[0]] + rest[0];
        [[s[0]] + rest[0]] + rest[1..]
  }

  /** sep.join(ws). */
  function Join(ws: seq<string>, sep: char): string {
    if ws == [] then []
    else if |ws| == 1 then ws[0]
    else ws[0] + [sep] + Join(ws[1..], sep)
  }

  /** Splitting and joining back with the same separator gives the string back. */
  lemma {:induction false} JoinSplit(s: string, sep: char)
    ensures Join(Split(s, sep), sep) == s
  {
    if s != [] {
      var rest := Split(s[1..], sep);
      JoinSplit(s[1..], sep);
      if s[0] == sep {
        assert Split(s, sep) == [[]] + rest;
        assert ([[]] + rest)[1..] == rest;
      } else {
        var ws := [[s[0]] + rest[0]] + rest[1..];
        assert Split(s, sep) == ws;
        if |rest| == 1 {
          assert Join(ws, sep) == [s[0]] + rest[0];
        } else {
          assert ws[1..] == rest[1..];
          assert Join(rest, sep) == rest[0] + [sep] + Join(rest[1..], sep);
        }
      }
    }
  }

  /** str.capitalize(): first character upper-cased, the rest lower-cased. */
  function Capitalize(w: string): (r: string)
    ensures |r| == |w|
    ensures forall i :: 0 <= i < |w| ==> r[i] == if i == 0 then UpperChar(w[0]) else LowerChar(w[i])
  {
    if w == [] then [] else [UpperChar(w[0])] + Lower(w[1..])
  }

  function CapitalizeAll(ws: seq<string>): (r: seq<string>)
    ensures |r| == |ws|
    ensures forall i :: 0 <= i < |ws| ==> r[i] == Capitalize(ws[i])
  {
    if ws == [] then []
    else
      var rest := CapitalizeAll(ws[1..]);
      assert forall i :: 1 <= i < |ws| ==> ws[1..][i - 1] == ws[i];
      [Capitalize(ws[0])] + rest
  }

  /** `_build_entity_name`: the type split on "-", each piece capitalised, joined with spaces. */
  function Name(sensorType: string): string {
    Join(CapitalizeAll(Split(sensorType, '-')), ' ')
  }

  /** The character of the name at a position of the type: "-" becomes a space, a word start is upper-cased, the rest lower-cased. */
  function NameChar(s: string, i: nat): char
    requires i < |s|
  {
    if s[i] == '-' then ' '
    else if i == 0 || s[i - 1] == '-' then UpperChar(s[i])
    else LowerChar(s[i])
  }

  /** One step of the name: a capitalised piece, a space and the rest, against the piece, "-" and the rest. */
  lemma NameCharCons(p: string, s': string, n': string, i: nat)
    requires '-' !in p
    requires |n'| == |s'|
    requires forall j :: 0 <= j < |s'| ==> n'[j] == NameChar(s', j)
    requires i < |p| + 1 + |s'|
    ensures (Capitalize(p) + [' '] + n')[i] == NameChar(p + ['-'] + s', i)
  {
    if i < |p| {
      NameCharHead(p, s', n', i);
    } else if i > |p| {
      NameCharTail(p, s', n', i - |p| - 1);
    } else {
      NameCharMid(p, s', n');
    }
  }

  lemma NameCharMid(p: string, s': string, n': string)
    ensures (Capitalize(p) + [' '] + n')[|p|] == NameChar(p + ['-'] + s', |p|)
  {
    assert (p + ['-'] + s')[|p|] == '-';
    assert |Capitalize(p)| == |p|;
  }

  lemma NameCharHead(p: string, s': string, n': string, i: nat)
    requires '-' !in p
    requires i < |p|
    ensures (Capitalize(p) + [' '] + n')[i] == NameChar(p + ['-'] + s', i)
  {
    var s := p + ['-'] + s';
    assert s[i] == p[i];
    assert p[i] != '-';
    if i > 0 {
      assert s[i - 1] == p[i - 1];
      assert p[i - 1] != '-';
    }
  }

  lemma NameCharTail(p: string, s': string, n': string, j: nat)
    requires |n'| == |s'|
    requires j < |s'|
    requires n'[j] == NameChar(s', j)
    ensures (Capitalize(p) + [' '] + n')[|p| + 1 + j] == NameChar(p + ['-'] + s', |p| + 1 + j)
  {
    var s, i := p + ['-'] + s', |p| + 1 + j;
    assert s[i] == s'[j];
    if j > 0 {
      assert s[i - 1] == s'[j - 1];
    }
  }

  lemma {:induction false} JoinCapitalizedAt(ps: seq<string>)
    requires forall k :: 0 <= k < |ps| ==> '-' !in ps[k]
    ensures |Join(CapitalizeAll(ps), ' ')| == |Join(ps, '-')|
    ensures forall i :: 0 <= i < |Join(ps, '-')| ==> Join(CapitalizeAll(ps), ' ')[i] == NameChar(Join(ps, '-'), i)
  {
    if |ps| == 1 {
      assert CapitalizeAll(ps) == [Capitalize(ps[0])];
    } else if |ps| > 1 {
      var p, rest := ps[0], ps[1..];
      JoinCapitalizedAt(rest);
      var s', n' := Join(rest, '-'), Join(CapitalizeAll(rest), ' ');
      assert CapitalizeAll(ps)[1..] == CapitalizeAll(rest);
      assert Join(ps, '-') == p + ['-'] + s';
      assert Join(CapitalizeAll(ps), ' ') == Capitalize(p) + [' '] + n';
      forall i | 0 <= i < |Join(ps, '-')|
        ensures Join(CapitalizeAll(ps), ' ')[i] == NameChar(Join(ps, '-'), i)
      {
        NameCharCons(p, s', n', i);
      }
    }
  }

  /**
   * The name has the length of the type, and each of its characters is
   * determined by the type: a space for each "-", an upper-case letter at the
   * start of each word, lower case elsewhere.
   */
  lemma NameAt(sensorType: string)
    ensures |Name(sensorType)| == |sensorType|
    ensures forall i :: 0 <= i < |sensorType| ==> Name(sensorType)[i] == NameChar(sensorType, i)
  {
    JoinSplit(sensorType, '-');
    JoinCapitalizedAt(Split(sensorType, '-'));
  }

  /** The name is made of (number of "-" in the type) + 1 capitalised pieces and holds no "-". */
  lemma NameWords(sensorType: string)
    ensures |CapitalizeAll(Split(sensorType, '-'))| == Count(sensorType, '-') + 1
    ensures '-' !in Name(sensorType)
  {
    NameAt(sensorType);
    forall i | 0 <= i < |sensorType| ensures Name(sensorType)[i] != '-' {
      assert NameChar(sensorType, i) != '-';
    }
  }

  lemma ExampleFirstWord(t: string, n: string)
    requires t == "historical-consumption"
    requires |n| == |t|
    requires forall i :: 0 <= i < |t| ==> n[i] == NameChar(t, i)
    ensures forall k :: 0 <= k < 11 ==> n[k] == "Historical Consumption"[k]
  {
    assert n[0] == NameChar(t, 0) == 'H';
    assert n[1] == NameChar(t, 1) == 'i';
    assert n[2] == NameChar(t, 2) == 's';
    assert n[3] == NameChar(t, 3) == 't';
    assert n[4] == NameChar(t, 4) == 'o';
    assert n[5] == NameChar(t, 5) == 'r';
    assert n[6] == NameChar(t, 6) == 'i';
    assert n[7] == NameChar(t, 7) == 'c';
    assert n[8] == NameChar(t, 8) == 'a';
    assert n[9] == NameChar(t, 9) == 'l';
    assert n[10] == NameChar(t, 10) == ' ';
  }

  lemma ExampleSecondWord(t: string, n: string)
    requires t == "historical-consumption"
    requires |n| == |t|
    requires forall i :: 0 <= i < |t| ==> n[i] == NameChar(t, i)
    ensures forall k :: 11 <= k < 22 ==> n[k] == "Historical Consumption"[k]
  {
    assert n[11] == NameChar(t, 11) == 'C';
    assert n[12] == NameChar(t, 12) == 'o';
    assert n[13] == NameChar(t, 13) == 'n';
    assert n[14] == NameChar(t, 14) == 's';
    assert n[15] == NameChar(t, 15) == 'u';
    assert n[16] == NameChar(t, 16) == 'm';
    assert n[17] == NameChar(t, 17) == 'p';
    assert n[18] == NameChar(t, 18) == 't';
    assert n[19] == NameChar(t, 19) == 'i';
    assert n[20] == NameChar(t, 20) == 'o';
    assert n[21] == NameChar(t, 21) == 'n';
  }

  /** "historical-consumption" is named "Historical Consumption". */
  lemma ExampleChars(t: string, n: string)
    requires t == "historical-consumption"
    requires |n| == |t|
    requires forall i :: 0 <= i < |t| ==> n[i] == NameChar(t, i)
    ensures n == "Historical Consumption"
  {
    ExampleFirstWord(t, n);
    ExampleSecondWord(t, n);
    var want := "Historical Consumption";
    assert |n| == |want|;
    assert forall k :: 0 <= k < |n| ==> n[k] == want[k];
  }

  lemma NameExample()
    ensures Name("historical-consumption") == "Historical Consumption"
  {
    NameAt("historical-consumption");
    ExampleChars("historical-consumption", Name("historical-consumption"));
  }
}
