/** The price-estimate card: shown only to administrators, it multiplies a
    unit price by a volume and by the compounded yearly inflation from
    2024 up to the chosen year. Prices and rates are exact reals here. */
module Proyeksi {
  import opened Js

  /** Who is looking, decided once from the cookies and local storage. */
  datatype Auth = Admin | External | Public

  /** `userData` is `localStorage.getItem('userData')`: `None` for `null`. */
  function Classify(cookies: string, userData: Option<string>): (a: Auth)
    ensures a == Admin <==> Contains(cookies, "accessToken") && Contains(cookies, "refreshToken")
    ensures a == External <==> !(Contains(cookies, "accessToken") && Contains(cookies, "refreshToken")) &&
                               userData.Some? && userData.value != ""
    ensures a == Public <==> !(Contains(cookies, "accessToken") && Contains(cookies, "refreshToken")) &&
                             (userData.None? || userData.value == "")
  {
    if Contains(cookies, "accessToken") && Contains(cookies, "refreshToken") then Admin
    else if userData.Some? && userData.value != "" then External
    else Public
  }

  /** The unit prices per item. */
  const HargaSatuan: map<string, real> := map[
    "Jalan" := 275654.97, "Saluran" := 1105457.51, "Speedbump" := 3635000.00,
    "Cermin Cembung" := 4500000.00, "Vertikal Garden" := 25238000.00, "PJU" := 15216041.00,
    "Bollard" := 2791125.00, "Bangku" := 9900000.00, "Gapura" := 30489491.00,
    "Wayfinding" := 16380000.00]

  /** The yearly inflation rates from 2024 on. */
  const Inflasi: seq<real> := [
    0.0090, 0.0337, 0.0331, 0.0340, 0.0331, 0.0325, 0.0342, 0.0380,
    0.0358, 0.0298, 0.0313, 0.0336, 0.0335, 0.0336, 0.0336, 0.0336, 0.0337]

  const BaseYear: int := 2023

  /** The years the year dropdown offers. */
  const FirstYear: int := 2024
  const LastYear: int := 2040

  /** The product of (1 + rate) over the first `n` rates. */
  function Growth(n: nat): (g: real)
    requires n <= |Inflasi|
    ensures g >= 1.0
  {
    if n == 0 then 1.0 else Growth(n - 1) * (1.0 + Inflasi[n - 1])
  }

  lemma GrowthStep(i: nat)
    requires i < |Inflasi|
    ensures Growth(i + 1) == Growth(i) * (1.0 + Inflasi[i])
  {
  }

  /** Every rate is positive, so each further year compounds to more. */
  lemma {:induction false} GrowthIncreasing(m: nat, n: nat)
    requires m < n <= |Inflasi|
    ensures Growth(m) < Growth(n)
  {
    assert Inflasi[n - 1] > 0.0;
    if m < n - 1 {
      GrowthIncreasing(m, n - 1);
    }
  }

  /** The multiplier the loop computes for `tahun`: `None` stands for NaN,
      which a read past the end of the rates (`undefined`) produces. */
  function MultiplierFor(tahun: int): Option<real>
  {
    if tahun - BaseYear <= 0 then Some(1.0)
    else if tahun - BaseYear <= |Inflasi| then Some(Growth(tahun - BaseYear))
    else None
  }

  /** Every year the dropdown offers stays within the rate table, and the
      multiplier grows strictly from year to year. */
  lemma SelectableYears(t1: int, t2: int)
    requires FirstYear <= t1 < t2 <= LastYear
    ensures MultiplierFor(t1).Some? && MultiplierFor(t2).Some?
    ensures MultiplierFor(t1).value < MultiplierFor(t2).value
  {
    GrowthIncreasing(t1 - BaseYear, t2 - BaseYear);
  }

  /** 'meter' for the two items priced per metre. */
  function UnitWord(item: string): (w: string)
    ensures w == "meter" <==> item == "Jalan" || item == "Saluran"
    ensures w == "unit" <==> item != "Jalan" && item != "Saluran"
  {
    if item == "Jalan" || item == "Saluran" then "meter" else "unit"
  }

  /** The result line's content: the year, the volume, the unit word, the
      item and the total price (`None` for NaN). */
  datatype Estimate = Estimate(tahun: int, volume: real, unit: string, item: string, total: Option<real>)

  /** The form's fields: `volume` is `None` when the input does not parse
      (NaN); `hasil` is `None` while it is the empty string. */
  datatype Form = Form(item: string, volume: Option<real>, tahun: int, hasil: Option<Estimate>)

  /** `!item || !volume || !tahun` */
  predicate Incomplete(item: string, volume: Option<real>, tahun: int)
  {
    item == "" || volume.None? || volume.value == 0.0 || tahun == 0
  }

  /** `hargaAwal * volume * multiplier` */
  function Price(harga: real, volume: real, multiplier: real): real
  {
    harga * volume * multiplier
  }

  /** The total price, `None` for NaN (an unknown item or a year past the
      rate table). */
  function TotalHarga(item: string, volume: real, tahun: int): (r: Option<real>)
    ensures r.Some? <==> item in HargaSatuan && tahun - BaseYear <= |Inflasi|
  {
    if item in HargaSatuan && MultiplierFor(tahun).Some? then
      Some(Price(HargaSatuan[item], volume, MultiplierFor(tahun).value))
    else None
  }

  /** The `for` loop of `hitungEstimasi`: `multiplier *= (1 + inflasi[i])`
      for `i` from 0 while below `tahun - 2023`. */
  method CompoundInflation(tahun: int) returns (multiplier: Option<real>)
    ensures multiplier == MultiplierFor(tahun)
  {
    multiplier := Some(1.0);
    var i := 0;
    while i < tahun - BaseYear
      invariant 0 <= i && (tahun - BaseYear > 0 ==> i <= tahun - BaseYear)
      invariant tahun - BaseYear <= 0 ==> i == 0
      invariant i <= |Inflasi| ==> multiplier == Some(Growth(i))
      invariant i > |Inflasi| ==> multiplier == None
      decreases tahun - BaseYear - i
    {
      if i < |Inflasi| && multiplier.Some? {
        GrowthStep(i);
        multiplier := Some(multiplier.value * (1.0 + Inflasi[i]));
      } else {
        multiplier := None;
      }
      i := i + 1;
    }
  }

  class ProyeksiCard {
    var authStatus: Option<Auth>
    var item: string
    var volume: Option<real>
    var tahun: int
    var hasil: Option<Estimate>

    function FormState(): Form
      reads this
    {
      Form(item, volume, tahun, hasil)
    }

    /** The initial state: status not yet known, the first item, one unit,
        2024 and no result. */
    constructor ()
      ensures authStatus == None
      ensures FormState() == Form("Jalan", Some(1.0), 2024, None)
    {
      authStatus := None;
      item := "Jalan";
      volume := Some(1.0);
      tahun := 2024;
      hasil := None;
    }

    /** The mount effect. */
    method CheckAuth(cookies: string, userData: Option<string>)
      modifies this
      ensures authStatus == Some(Classify(cookies, userData))
      ensures Renders() <==> Contains(cookies, "accessToken") && Contains(cookies, "refreshToken")
      ensures FormState() == old(FormState())
    {
      authStatus := Some(Classify(cookies, userData));
    }

    /** Only an administrator sees the card. */
    predicate Renders()
      reads this
    {
      authStatus == Some(Admin)
    }

    method SetItem(v: string)
      modifies this
      ensures FormState() == old(FormState()).(item := v) && authStatus == old(authStatus)
    {
      item := v;
    }

    method SetVolume(v: Option<real>)
      modifies this
      ensures FormState() == old(FormState()).(volume := v) && authStatus == old(authStatus)
    {
      volume := v;
    }

    method SetTahun(v: int)
      modifies this
      ensures FormState() == old(FormState()).(tahun := v) && authStatus == old(authStatus)
    {
      tahun := v;
    }

    /** `hitungEstimasi`: an incomplete form changes nothing; otherwise the
        loop compounds `tahun - 2023` rates and the result is set. */
    method HitungEstimasi()
      modifies this
      ensures Incomplete(old(item), old(volume), old(tahun)) ==> FormState() == old(FormState())
      ensures !Incomplete(old(item), old(volume), old(tahun)) ==>
        FormState() == old(FormState()).(hasil := Some(Estimate(old(tahun), old(volume).value, UnitWord(old(item)),
                                                               old(item), TotalHarga(old(item), old(volume).value, old(tahun)))))
      ensures authStatus == old(authStatus)
    {
      if Incomplete(item, volume, tahun) {
        return;
      }
      var multiplier := CompoundInflation(tahun);
      var total := if item in HargaSatuan && multiplier.Some? then
        Some(Price(HargaSatuan[item], volume.value, multiplier.value)) else None;
      hasil := Some(Estimate(tahun, volume.value, UnitWord(item), item, total));
    }

    /** `resetForm`: back to the initial form, the result cleared. */
    method ResetForm()
      modifies this
      ensures FormState() == Form("Jalan", Some(1.0), 2024, None)
      ensures authStatus == old(authStatus)
    {
      item := "Jalan";
      volume := Some(1.0);
      tahun := 2024;
      hasil := None;
    }
  }
}
