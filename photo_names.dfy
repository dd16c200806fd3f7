/*
 * Photo identities and their on-disk file names.
 *
 * A photo is addressed either by a (tab, slot) pair or by the single profile
 * identity. Each identity maps to a fixed file name inside the store's
 * directory: `tab_{tab}_slot_{slot}.jpg` or `profile_photo.jpg`, where the
 * numbers are rendered the way Swift string interpolation renders an `Int`
 * (decimal, no leading zeros, a leading `-` for negatives).
 *
 * The naming is only useful if it never aliases two identities. This module
 * proves that by giving the naming an inverse, ParseFileName, and proving the
 * round trip ParseFileName(FileName(k)) == Some(k) for every identity.
 */
module PhotoNames {

  datatype Option<+T> = None | Some(value: T)

  /** The logical identity of a stored photo. Swift `Int`s, hence `int`. */
  datatype PhotoKey = TabSlot(tab: int, slot: int) | ProfileKey

  // ---------------------------------------------------------------------
  // Decimal rendering of integers
  // ---------------------------------------------------------------------

  predicate IsDigit(c: char) {
    '0' <= c <= '9'
  }

  predicate AllDigits(s: string) {
    forall i :: 0 <= i < |s| ==> IsDigit(s[i])
  }

  function DigitChar(d: nat): (c: char)
    requires d < 10
    ensures IsDigit(c) && c as int - '0' as int == d
  {
    ('0' as int + d) as char
  }

  function DigitValue(c: char): (d: nat)
    requires IsDigit(c)
    ensures d < 10 && DigitChar(d) == c
  {
    c as int - '0' as int
  }

  /** The decimal digits of `n`, most significant first, without leading zeros. */
  function NatToString(n: nat): (r: string)
    ensures |r| > 0 && AllDigits(r)
    ensures (|r| == 1) == (n < 10)
    ensures n >= 10 ==> r[0] != '0'
  {
    if n < 10 then [DigitChar(n)] else NatToString(n / 10) + [DigitChar(n % 10)]
  }

  /** The number a non-empty string of decimal digits denotes. */
  function DigitsValue(s: string): nat
    requires AllDigits(s)
  {
    if |s| == 0 then 0 else DigitsValue(s[..|s| - 1]) * 10 + DigitValue(s[|s| - 1])
  }

  /** Reading back the decimal rendering of `n` gives `n`. */
  lemma {:induction false} NatToStringRoundTrip(n: nat)
    ensures DigitsValue(NatToString(n)) == n
  {
    var s := NatToString(n);
    if n >= 10 {
      NatToStringRoundTrip(n / 10);
      assert s[..|s| - 1] == NatToString(n / 10);
    }
  }

  /** How `"\(i)"` renders a Swift `Int`: a minus sign for negatives, then the digits. */
  function IntToString(i: int): (r: string)
    ensures |r| > 0
    ensures forall k :: 0 <= k < |r| ==> r[k] != '_'
  {
    if i < 0 then "-" + NatToString(-i) else NatToString(i)
  }

  /** The inverse of IntToString on its image; None on anything else. */
  function ParseInt(s: string): Option<int> {
    if |s| > 1 && s[0] == '-' && AllDigits(s[1..]) then Some(0 - DigitsValue(s[1..]))
    else if |s| > 0 && AllDigits(s) then Some(DigitsValue(s))
    else None
  }

  lemma IntToStringRoundTrip(i: int)
    ensures ParseInt(IntToString(i)) == Some(i)
  {
    var s := IntToString(i);
    if i < 0 {
      assert s[1..] == NatToString(-i);
      NatToStringRoundTrip(-i);
    } else {
      NatToStringRoundTrip(i);
    }
  }

  // ---------------------------------------------------------------------
  // File names
  // ---------------------------------------------------------------------

  const TabPrefix: string := "tab_"
  const SlotInfix: string := "_slot_"
  const JpegSuffix: string := ".jpg"

  /** The file name of a tab/slot photo: `tab_{tab}_slot_{slot}.jpg`. */
  function PhotoFileName(tab: int, slot: int): (r: string)
    ensures |r| > |TabPrefix| + |JpegSuffix|
    ensures r[..|TabPrefix|] == TabPrefix && r[|r| - |JpegSuffix|..] == JpegSuffix
  {
    TabPrefix + IntToString(tab) + SlotInfix + IntToString(slot) + JpegSuffix
  }

  /** The file name of the profile photo. */
  const ProfilePhotoFileName: string := "profile_photo.jpg"

  /** The file name of any identity; every one is a JPEG file, and only tab/slot names start with `t`. */
  function FileName(key: PhotoKey): (r: string)
    ensures |r| > |JpegSuffix| && r[|r| - |JpegSuffix|..] == JpegSuffix
    ensures (r[0] == 't') == key.TabSlot?
  {
    match key
    case TabSlot(tab, slot) => PhotoFileName(tab, slot)
    case ProfileKey => ProfilePhotoFileName
  }

  /** The position of the first `c` in `s`, or |s| when there is none. */
  function IndexOf(s: string, c: char): (r: nat)
    ensures r <= |s|
    ensures r < |s| ==> s[r] == c
    ensures forall j :: 0 <= j < r ==> s[j] != c
  {
    if |s| == 0 then 0
    else if s[0] == c then 0
    else 1 + IndexOf(s[1..], c)
  }

  /**
   * Recovers the identity a file name stands for, or None when the name is
   * not of either form. Used only to prove that FileName loses nothing.
   */
  function ParseFileName(name: string): Option<PhotoKey> {
    if name == ProfilePhotoFileName then Some(ProfileKey)
    else if |name| >= |TabPrefix| + |JpegSuffix|
      && name[..|TabPrefix|] == TabPrefix
      && name[|name| - |JpegSuffix|..] == JpegSuffix
    then
      var middle := name[|TabPrefix|..|name| - |JpegSuffix|];
      var i := IndexOf(middle, '_');
      if i + |SlotInfix| <= |middle| && middle[i..i + |SlotInfix|] == SlotInfix then
        match (ParseInt(middle[..i]), ParseInt(middle[i + |SlotInfix|..]))
        case (Some(tab), Some(slot)) => Some(TabSlot(tab, slot))
        case _ => None
      else None
    else None
  }

  /** The first `_` of `a + "_slot_" + b` is the infix's own when `a` has none. */
  lemma FirstUnderscoreAfterTab(a: string, b: string)
    requires forall k :: 0 <= k < |a| ==> a[k] != '_'
    ensures IndexOf(a + SlotInfix + b, '_') == |a|
  {
    var m := a + SlotInfix + b;
    assert m[|a|] == '_';
  }

  /** Every file name the store writes can be read back to the identity it came from. */
  lemma {:induction false} ParseFileNameRoundTrip(key: PhotoKey)
    ensures ParseFileName(FileName(key)) == Some(key)
  {
    match key
    case ProfileKey =>
    case TabSlot(tab, slot) =>
      var a, b := IntToString(tab), IntToString(slot);
      var name := PhotoFileName(tab, slot);
      assert name[0] == 't' && ProfilePhotoFileName[0] == 'p';
      var middle := a + SlotInfix + b;
      assert name == TabPrefix + middle + JpegSuffix;
      assert name[..|TabPrefix|] == TabPrefix;
      assert name[|name| - |JpegSuffix|..] == JpegSuffix;
      assert name[|TabPrefix|..|name| - |JpegSuffix|] == middle;
      FirstUnderscoreAfterTab(a, b);
      assert middle[..|a|] == a;
      assert middle[|a|..|a| + |SlotInfix|] == SlotInfix;
      assert middle[|a| + |SlotInfix|..] == b;
      IntToStringRoundTrip(tab);
      IntToStringRoundTrip(slot);
  }

  /** Distinct identities never share a file name: the naming is injective. */
  lemma FileNameInjective(k1: PhotoKey, k2: PhotoKey)
    ensures FileName(k1) == FileName(k2) <==> k1 == k2
  {
    ParseFileNameRoundTrip(k1);
    ParseFileNameRoundTrip(k2);
  }

  /** Distinct (tab, slot) pairs give distinct file names, so no two slots alias. */
  lemma PhotoFileNameInjective(tab1: int, slot1: int, tab2: int, slot2: int)
    ensures PhotoFileName(tab1, slot1) == PhotoFileName(tab2, slot2)
        <==> tab1 == tab2 && slot1 == slot2
  {
    FileNameInjective(TabSlot(tab1, slot1), TabSlot(tab2, slot2));
  }

  /** No tab/slot file name is the profile photo's file name. */
  lemma ProfileFileNameDistinct(tab: int, slot: int)
    ensures PhotoFileName(tab, slot) != ProfilePhotoFileName
  {
    FileNameInjective(TabSlot(tab, slot), ProfileKey);
  }
}
