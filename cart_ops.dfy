/**
 The values the cart store computes: the cart with one more entry, the cart with
 the entry at a position filtered out, and the total price. A cart is an ordered
 sequence of entries; the same product may occur at several positions.
 */
module CartOps {
  import opened Catalog

  /** Every entry of `cart` is one of the catalog's products. */
  predicate FromCatalog(cart: seq<Product>) {
    forall e :: e in cart ==> e in Products
  }

  /** The spread-append of `addToCart`: the old entries in order, then `p`. */
  function Append(cart: seq<Product>, p: Product): (r: seq<Product>)
    ensures |r| == |cart| + 1
    ensures r[|cart|] == p
    ensures r[..|cart|] == cart
  {
    cart + [p]
  }

  /**
   The filter of `removeFromCart`, which keeps every entry whose index differs from
   `i`, walked entry by entry: the head sits at index 0, so it is dropped exactly
   when `i == 0`, and the tail is filtered against `i - 1`. Exactly one entry goes
   when `i` is a position of the cart, none otherwise.
   */
  function RemoveAt(cart: seq<Product>, i: int): (r: seq<Product>)
    ensures |r| == if 0 <= i < |cart| then |cart| - 1 else |cart|
    decreases |cart|
  {
    if cart == [] then []
    else (if i == 0 then [] else [cart[0]]) + RemoveAt(cart[1..], i - 1)
  }

  /**
   The cart total, a reduction that starts at 0 and adds each entry's price, grouped
   from the left as the reduction runs: the total of all but the last entry, plus
   the last entry's price. It is never negative when no price is.
   */
  function Total(cart: seq<Product>): (t: int)
    ensures (forall e :: e in cart ==> e.price >= 0) ==> t >= 0
    decreases |cart|
  {
    if cart == [] then 0 else Total(cart[..|cart| - 1]) + cart[|cart| - 1].price
  }

  /** Adding the products `ps` one click at a time, starting from `cart`. */
  ghost function AddedInTurn(cart: seq<Product>, ps: seq<Product>): seq<Product>
    decreases |ps|
  {
    if ps == [] then cart else AddedInTurn(Append(cart, ps[0]), ps[1..])
  }

  // ---------------------------------------------------------------------------
  // Removal by position

  /** A removal at a position of the cart leaves the entries before it and after it, in order. */
  lemma {:induction false} RemoveAtInRange(cart: seq<Product>, i: int)
    requires 0 <= i < |cart|
    ensures RemoveAt(cart, i) == cart[..i] + cart[i + 1..]
    decreases |cart|
  {
    if i == 0 {
      RemoveAtOutOfRange(cart[1..], -1);
    } else {
      RemoveAtInRange(cart[1..], i - 1);
      calc {
        RemoveAt(cart, i);
        [cart[0]] + RemoveAt(cart[1..], i - 1);
        [cart[0]] + (cart[1..][..i - 1] + cart[1..][i..]);
        { assert [cart[0]] + cart[1..][..i - 1] == cart[..i]; assert cart[1..][i..] == cart[i + 1..]; }
        cart[..i] + cart[i + 1..];
      }
    }
  }

  /** A removal at an index that is not a position of the cart matches no entry. */
  lemma {:induction false} RemoveAtOutOfRange(cart: seq<Product>, i: int)
    requires i < 0 || i >= |cart|
    ensures RemoveAt(cart, i) == cart
    decreases |cart|
  {
    if cart != [] {
      RemoveAtOutOfRange(cart[1..], i - 1);
      assert [cart[0]] + cart[1..] == cart;
    }
  }

  /** Positionwise: the entries before `i` keep their positions, those after it move one place forward. */
  lemma RemoveAtShifts(cart: seq<Product>, i: int)
    requires 0 <= i < |cart|
    ensures forall k :: 0 <= k < i ==> RemoveAt(cart, i)[k] == cart[k]
    ensures forall k :: i <= k < |cart| - 1 ==> RemoveAt(cart, i)[k] == cart[k + 1]
  {
    RemoveAtInRange(cart, i);
  }

  /** Cutting one entry out of a sequence takes exactly that entry out of its multiset. */
  lemma MultisetCut(cart: seq<Product>, i: int)
    requires 0 <= i < |cart|
    ensures multiset(cart) == multiset(cart[..i] + cart[i + 1..]) + multiset{cart[i]}
  {
    assert cart == cart[..i] + [cart[i]] + cart[i + 1..];
  }

  /** The removed entry, and only it, leaves the multiset of entries. */
  lemma RemoveAtMultiset(cart: seq<Product>, i: int)
    requires 0 <= i < |cart|
    ensures multiset(cart) == multiset(RemoveAt(cart, i)) + multiset{cart[i]}
  {
    RemoveAtInRange(cart, i);
    MultisetCut(cart, i);
  }

  /** Removing any position keeps a cart of catalog products a cart of catalog products. */
  lemma RemoveAtFromCatalog(cart: seq<Product>, i: int)
    requires FromCatalog(cart)
    ensures FromCatalog(RemoveAt(cart, i))
  {
    if 0 <= i < |cart| {
      RemoveAtMultiset(cart, i);
      forall e | e in RemoveAt(cart, i) ensures e in cart {
        assert e in multiset(RemoveAt(cart, i));
        assert e in multiset(cart);
      }
    } else {
      RemoveAtOutOfRange(cart, i);
    }
  }

  /** Adding catalog products keeps the cart a cart of catalog products, and only they do. */
  lemma AppendFromCatalog(cart: seq<Product>, p: Product)
    ensures FromCatalog(Append(cart, p)) <==> FromCatalog(cart) && p in Products
  {
    assert p in Append(cart, p);
    assert forall e :: e in cart ==> e in Append(cart, p);
  }

  /** Removing the entry just added gives the cart back. */
  lemma AppendThenRemove(cart: seq<Product>, p: Product)
    ensures RemoveAt(Append(cart, p), |cart|) == cart
  {
    RemoveAtInRange(Append(cart, p), |cart|);
  }

  // ---------------------------------------------------------------------------
  // Total

  /** The total of two carts laid end to end is the sum of their totals. */
  lemma {:induction false} TotalConcat(a: seq<Product>, b: seq<Product>)
    ensures Total(a + b) == Total(a) + Total(b)
    decreases |b|
  {
    if b == [] {
      assert a + b == a;
    } else {
      var b' := b[..|b| - 1];
      assert (a + b)[..|a + b| - 1] == a + b';
      TotalConcat(a, b');
    }
  }

  /** Adding a product raises the total by its price. */
  lemma TotalAppend(cart: seq<Product>, p: Product)
    ensures Total(Append(cart, p)) == Total(cart) + p.price
  {
    assert Append(cart, p)[..|cart|] == cart;
  }

  /** Removing the entry at a position lowers the total by that entry's price. */
  lemma TotalRemoveAt(cart: seq<Product>, i: int)
    requires 0 <= i < |cart|
    ensures Total(RemoveAt(cart, i)) == Total(cart) - cart[i].price
  {
    RemoveAtInRange(cart, i);
    TotalCut(cart, i);
  }

  /** Cutting one entry out of a sequence takes exactly its price off the total. */
  lemma TotalCut(cart: seq<Product>, i: int)
    requires 0 <= i < |cart|
    ensures Total(cart) == Total(cart[..i] + cart[i + 1..]) + cart[i].price
  {
    var before, x, after := cart[..i], cart[i], cart[i + 1..];
    assert cart == before + ([x] + after);
    TotalConcat(before, [x] + after);
    TotalConcat([x], after);
    assert [x][..0] == [];
    TotalConcat(before, after);
  }

  /** The total depends only on which entries the cart holds, not on their order. */
  lemma {:induction false} TotalPermutation(a: seq<Product>, b: seq<Product>)
    requires multiset(a) == multiset(b)
    ensures Total(a) == Total(b)
    decreases |a|
  {
    if a == [] {
      assert |b| == |multiset(b)| == 0;
    } else {
      var n := |a| - 1;
      assert a[n] in multiset(b);
      var j :| 0 <= j < |b| && b[j] == a[n];
      PermutationWithoutLast(a, b, j);
      TotalCut(b, j);
      TotalPermutation(a[..n], b[..j] + b[j + 1..]);
    }
  }

  /** Taking the last entry of `a` and an equal entry of `b` off two permutations leaves permutations. */
  lemma PermutationWithoutLast(a: seq<Product>, b: seq<Product>, j: int)
    requires multiset(a) == multiset(b)
    requires a != [] && 0 <= j < |b| && b[j] == a[|a| - 1]
    ensures multiset(a[..|a| - 1]) == multiset(b[..j] + b[j + 1..])
  {
    var n := |a| - 1;
    assert a == a[..n] + [a[n]];
    MultisetCut(b, j);
    MultisetCancel(multiset(a[..n]), multiset(b[..j] + b[j + 1..]), a[n]);
  }

  /** Adding the same entry to two multisets of entries keeps them apart if they were. */
  lemma MultisetCancel(m: multiset<Product>, m': multiset<Product>, x: Product)
    requires m + multiset{x} == m' + multiset{x}
    ensures m == m'
  {
    forall y ensures m[y] == m'[y] {
      assert (m + multiset{x})[y] == (m' + multiset{x})[y];
    }
  }

  /** With positive prices, as in the catalog, the total is 0 exactly for the empty cart. */
  lemma {:induction false} EmptyIffZeroTotal(cart: seq<Product>)
    requires forall e :: e in cart ==> e.price > 0
    ensures Total(cart) == 0 <==> cart == []
    decreases |cart|
  {
    if cart != [] {
      var n := |cart| - 1;
      assert forall e :: e in cart[..n] ==> e in cart;
      assert cart[n] in cart;
      assert Total(cart[..n]) >= 0;
    }
  }

  /** A cart of catalog products is empty exactly when its total is 0. */
  lemma CatalogCartEmptyIffZeroTotal(cart: seq<Product>)
    requires FromCatalog(cart)
    ensures Total(cart) == 0 <==> cart == []
  {
    Catalog.CatalogWellFormed();
    EmptyIffZeroTotal(cart);
  }

  // ---------------------------------------------------------------------------
  // Sequences of clicks and duplicate entries

  /** Adding products one at a time leaves them in the cart in click order. */
  lemma {:induction false} AddedInTurnInOrder(cart: seq<Product>, ps: seq<Product>)
    ensures AddedInTurn(cart, ps) == cart + ps
    decreases |ps|
  {
    if ps != [] {
      AddedInTurnInOrder(Append(cart, ps[0]), ps[1..]);
      assert Append(cart, ps[0]) + ps[1..] == cart + ps;
    }
  }

  /** The protein powder and the creatine added to an empty cart total 84.98. */
  lemma PowderAndCreatineTotal()
    ensures Total(AddedInTurn([], [Products[0], Products[1]])) == 8498
  {
    var powder, creatine := Products[0], Products[1];
    AddedInTurnInOrder([], [powder, creatine]);
    assert [] + [powder, creatine] == Append(Append([], powder), creatine);
    TotalAppend(Append([], powder), creatine);
    TotalAppend([], powder);
  }

  /**
   Adding the same product twice gives two entries; removing either one leaves the
   other in place, still counted in the total.
   */
  lemma DuplicatesIndependent(cart: seq<Product>, p: Product, which: int)
    requires which == |cart| || which == |cart| + 1
    ensures var twice := Append(Append(cart, p), p);
      && |twice| == |cart| + 2 && twice[|cart|] == p && twice[|cart| + 1] == p
      && RemoveAt(twice, which) == Append(cart, p)
      && Total(RemoveAt(twice, which)) == Total(cart) + p.price
  {
    var twice := Append(Append(cart, p), p);
    RemoveAtInRange(twice, which);
    assert twice[..which] + twice[which + 1..] == cart + [p];
    TotalAppend(cart, p);
  }

  /** Adding a product to the empty cart and removing position 0 gives the empty cart, total 0. */
  lemma AddThenRemoveFirstFromEmpty(p: Product)
    ensures RemoveAt(Append([], p), 0) == [] && Total(RemoveAt(Append([], p), 0)) == 0
  {
    AppendThenRemove([], p);
  }
}
