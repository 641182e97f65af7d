/** Fan types and the product of their multiples.  The numbers stand for the server's
    `Asset::FAN_TYPE` enumeration, which is generated code and not part of this model. */
module Fans {

  const FAN_TYPE_MING_GANG: int := 1
  const FAN_TYPE_AN_GANG: int := 2
  const FAN_TYPE_XUAN_FENG_GANG: int := 3
  const FAN_TYPE_XUAN_JIAN_GANG: int := 4
  const FAN_TYPE_ZI_MO: int := 5
  const FAN_TYPE_DIAN_PAO: int := 6
  const FAN_TYPE_LIU_LEI: int := 7
  const FAN_TYPE_ZHUANG: int := 8
  const FAN_TYPE_BIMEN: int := 9
  const FAN_TYPE_PIAO_WEIHU: int := 10
  const FAN_TYPE_SAN_JIA_BI_MEN: int := 11
  const FAN_TYPE_JUETOUHUI: int := 12
  const FAN_TYPE_BAOSANJIA: int := 13
  const FAN_TYPE_PINGHU: int := 14
  const FAN_TYPE_GANG_SHANG_KAI: int := 15

  /** The product of the multiples of a fan set. */
  ghost function Product(multiple: int -> nat, fans: set<int>): nat
    decreases |fans|
  {
    if fans == {} then 1
    else
      HasElement(fans);
      var f :| f in fans;
      multiple(f) * Product(multiple, fans - {f})
  }

  lemma HasElement(s: set<int>)
    requires s != {}
    ensures exists x: int :: x in s
  {
    assert (forall x: int :: x !in s) ==> s == {};
  }

  /** The product does not depend on the order in which the fans are visited. */
  lemma {:induction false} ProductStep(multiple: int -> nat, fans: set<int>, f: int)
    requires f in fans
    ensures Product(multiple, fans) == multiple(f) * Product(multiple, fans - {f})
    decreases |fans|
  {
    var g :| g in fans && Product(multiple, fans) == multiple(g) * Product(multiple, fans - {g});
    if f != g {
      var rest := fans - {f} - {g};
      ProductStep(multiple, fans - {g}, f);
      ProductStep(multiple, fans - {f}, g);
      assert fans - {g} - {f} == rest;
      Swap(multiple(f), multiple(g), Product(multiple, rest));
    }
  }

  lemma Swap(a: nat, b: nat, c: nat)
    ensures a * (b * c) == b * (a * c)
  {
    assert a * (b * c) == (a * b) * c;
    assert b * (a * c) == (b * a) * c;
  }

  lemma Regroup(a: nat, b: nat, c: nat)
    ensures a * (b * c) == (a * b) * c
  {
  }
}
