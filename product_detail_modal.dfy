/** The product detail view of ProductDetailModal.tsx: an image carousel whose index wraps
    around, and the "related products" strip. */
module ProductDetailModal {
  import opened Optional
  import opened Types
  import Seqs

  /** `(i + 1) % n`. Both operands are non-negative, so JavaScript's `%` and Dafny's agree. The
      index may be past the end (it is kept when another product is opened in the dialog); the
      result is in range all the same. */
  function NextIndex(i: nat, n: nat): (j: nat)
    requires 0 < n
    ensures j < n
    ensures i < n ==> j == if i + 1 == n then 0 else i + 1
  {
    (i + 1) % n
  }

  /** `(i - 1 + n) % n`; `i - 1 + n` is non-negative because `i >= 0` and `n > 0`. */
  function PrevIndex(i: nat, n: nat): (j: nat)
    requires 0 < n
    ensures j < n
    ensures i < n ==> j == if i == 0 then n - 1 else i - 1
  {
    (i - 1 + n) % n
  }

  /** Stepping forward and then back, or back and then forward, returns to the same image. */
  lemma StepsAreInverse(i: nat, n: nat)
    requires i < n
    ensures PrevIndex(NextIndex(i, n), n) == i
    ensures NextIndex(PrevIndex(i, n), n) == i
  {
  }

  /** The index after `k` presses of "next". */
  function StepForward(i: nat, n: nat, k: nat): (j: nat)
    requires i < n
    ensures j < n
    decreases k
  {
    if k == 0 then i else NextIndex(StepForward(i, n, k - 1), n)
  }

  /** Pressing "next" `a` times and then `b` times is pressing it `a + b` times. */
  lemma {:induction false} StepForwardSplit(i: nat, n: nat, a: nat, b: nat)
    requires i < n
    ensures StepForward(i, n, a + b) == StepForward(StepForward(i, n, a), n, b)
    decreases b
  {
    if b > 0 {
      StepForwardSplit(i, n, a, b - 1);
    }
  }

  /** Before the last image is passed, each press of "next" moves one image on. */
  lemma {:induction false} StepForwardNoWrap(i: nat, n: nat, k: nat)
    requires i + k < n
    ensures StepForward(i, n, k) == i + k
    decreases k
  {
    if k > 0 {
      StepForwardNoWrap(i, n, k - 1);
    }
  }

  /** Going once round the carousel comes back to where it started. */
  lemma FullCycle(i: nat, n: nat)
    requires i < n
    ensures StepForward(i, n, n) == i
  {
    var toLast := n - 1 - i;
    StepForwardNoWrap(i, n, toLast);
    StepForwardSplit(i, n, toLast, 1);
    assert StepForward(i, n, n - i) == 0;
    StepForwardSplit(i, n, n - i, i);
    StepForwardNoWrap(0, n, i);
  }

  /** `allProducts.filter(p => p.id !== product.id).slice(0, 6)` */
  function RelatedProducts(all: seq<Product>, viewed: Product): (r: seq<Product>)
    ensures |r| <= 6
    ensures forall p :: p in r ==> p in all && p.id != viewed.id
    ensures Seqs.IsSubsequence(r, all)
    ensures var others := Seqs.Filter(all, (p: Product) => p.id != viewed.id);
      r <= others && |r| == if |others| < 6 then |others| else 6
  {
    var others := Seqs.Filter(all, (p: Product) => p.id != viewed.id);
    var r := if |others| <= 6 then others else others[..6];
    assert forall p :: p in r ==> p in others;
    PrefixIsSubsequence(r, others);
    SubsequenceTransitive(r, others, all);
    r
  }

  lemma {:induction false} PrefixIsSubsequence<T>(r: seq<T>, s: seq<T>)
    requires r <= s
    ensures Seqs.IsSubsequence(r, s)
    decreases |s|
  {
    if r != [] {
      PrefixIsSubsequence(r[1..], s[1..]);
    }
  }

  lemma {:induction false} SubsequenceTransitive<T>(a: seq<T>, b: seq<T>, c: seq<T>)
    requires Seqs.IsSubsequence(a, b) && Seqs.IsSubsequence(b, c)
    ensures Seqs.IsSubsequence(a, c)
    decreases |c|
  {
    if a == [] {
    } else if b[0] == c[0] && Seqs.IsSubsequence(b[1..], c[1..]) {
      if a[0] == b[0] && Seqs.IsSubsequence(a[1..], b[1..]) {
        SubsequenceTransitive(a[1..], b[1..], c[1..]);
      } else {
        SubsequenceTransitive(a, b[1..], c[1..]);
      }
    } else {
      SubsequenceTransitive(a, b, c[1..]);
    }
  }

  // ---------------------------------------------------------------------------
  // The carousel across product changes

  /** The image the carousel shows, `product.imageUrls[currentImageIndex]`; None when the index
      is past the end, where JavaScript yields `undefined` and the image is broken. */
  function ShownImage(p: Product, i: nat): (r: Option<string>)
    ensures r.Some? <==> i < |p.imageUrls|
    ensures r.Some? ==> r.value == p.imageUrls[i]
  {
    if i < |p.imageUrls| then Some(p.imageUrls[i]) else None
  }

  /** The arrows and the dots are rendered only for a product with more than one image. */
  predicate HasControls(p: Product)
  {
    |p.imageUrls| > 1
  }

  /** The product on show and `currentImageIndex`. */
  datatype ViewState = ViewState(product: Product, index: nat)

  /** A click in the open dialog: an arrow, a dot, or a card in the related strip. */
  datatype ViewEvent = NextClick | PrevClick | DotClick(dot: nat) | RelatedClick(related: Product)

  /** The index names an image of the product, or is 0. */
  predicate IndexInRange(s: ViewState)
  {
    s.index == 0 || s.index < |s.product.imageUrls|
  }

  /** A click on an arrow or a dot; one on a control that is not rendered does nothing. */
  function ClickImage(s: ViewState, e: ViewEvent): (r: ViewState)
    requires !e.RelatedClick?
    ensures r.product == s.product
    ensures !HasControls(s.product) ==> r == s
    ensures HasControls(s.product) ==> r.index < |s.product.imageUrls| || r == s
  {
    var n := |s.product.imageUrls|;
    if !HasControls(s.product) then s
    else match e
      case NextClick => s.(index := NextIndex(s.index, n))
      case PrevClick => s.(index := PrevIndex(s.index, n))
      case DotClick(k) => if k < n then s.(index := k) else s
  }

  /** One click as the dialog handles it: App.tsx renders the dialog without a `key`, so a
      related card only swaps the `product` prop and `currentImageIndex` is kept. */
  function StepAsWritten(s: ViewState, e: ViewEvent): (r: ViewState)
    ensures e.RelatedClick? ==> r == ViewState(e.related, s.index)
    ensures !e.RelatedClick? ==> r == ClickImage(s, e)
  {
    if e.RelatedClick? then s.(product := e.related) else ClickImage(s, e)
  }

  /** One click with the carousel starting again at the first image of a newly opened product,
      as a `key={viewingProduct.id}` on the dialog would make it. */
  function StepKeyed(s: ViewState, e: ViewEvent): (r: ViewState)
    ensures e.RelatedClick? ==> r == ViewState(e.related, 0)
    ensures !e.RelatedClick? ==> r == ClickImage(s, e)
  {
    if e.RelatedClick? then ViewState(e.related, 0) else ClickImage(s, e)
  }

  function RunAsWritten(s: ViewState, clicks: seq<ViewEvent>): ViewState
    decreases |clicks|
  {
    if clicks == [] then s else RunAsWritten(StepAsWritten(s, clicks[0]), clicks[1..])
  }

  function RunKeyed(s: ViewState, clicks: seq<ViewEvent>): ViewState
    decreases |clicks|
  {
    if clicks == [] then s else RunKeyed(StepKeyed(s, clicks[0]), clicks[1..])
  }

  /** As written, the index can outlive the product it was counted for: two presses of "next" on
      a three-image product and a click on a one-image listing leave index 2 on a product with
      one image, so no image is shown, and that product has no arrows or dots to recover with. */
  lemma StaleIndexAfterRelatedClick()
    ensures var three := Product(1, "a", "", 100, ["x", "y", "z"]);
      var one := Product(2, "b", "", 100, ["w"]);
      var s := RunAsWritten(ViewState(three, 0), [NextClick, NextClick, RelatedClick(one)]);
      && s == ViewState(one, 2)
      && !IndexInRange(s)
      && ShownImage(s.product, s.index) == None
      && !HasControls(s.product)
  {
    var three := Product(1, "a", "", 100, ["x", "y", "z"]);
    var one := Product(2, "b", "", 100, ["w"]);
    var clicks := [NextClick, NextClick, RelatedClick(one)];
    assert StepAsWritten(ViewState(three, 0), NextClick) == ViewState(three, 1);
    assert StepAsWritten(ViewState(three, 1), NextClick) == ViewState(three, 2);
    assert clicks[1..] == [NextClick, RelatedClick(one)];
    assert clicks[1..][1..] == [RelatedClick(one)];
    assert RunAsWritten(ViewState(three, 2), [RelatedClick(one)]) == ViewState(one, 2) by {
      assert [RelatedClick(one)][1..] == [];
    }
    assert RunAsWritten(ViewState(three, 1), clicks[1..]) == ViewState(one, 2);
  }

  /** Resetting on a product change keeps the index in range whatever is clicked. */
  lemma {:induction false} KeyedKeepsIndexInRange(s: ViewState, clicks: seq<ViewEvent>)
    requires IndexInRange(s)
    ensures IndexInRange(RunKeyed(s, clicks))
    decreases |clicks|
  {
    if clicks != [] {
      var next := StepKeyed(s, clicks[0]);
      assert IndexInRange(next);
      KeyedKeepsIndexInRange(next, clicks[1..]);
    }
  }

  /** With the reset, every product that has an image shows one, whatever was clicked before. */
  lemma KeyedAlwaysShowsImage(s: ViewState, clicks: seq<ViewEvent>)
    requires IndexInRange(s)
    ensures var t := RunKeyed(s, clicks);
      |t.product.imageUrls| > 0 ==> ShownImage(t.product, t.index).Some?
  {
    KeyedKeepsIndexInRange(s, clicks);
  }

  class DetailView {
    var product: Product
    const allProducts: seq<Product>
    var currentImageIndex: nat

    ghost function State(): ViewState
      reads this
    {
      ViewState(product, currentImageIndex)
    }

    constructor (product: Product, allProducts: seq<Product>)
      ensures this.product == product && this.allProducts == allProducts
      ensures currentImageIndex == 0 && IndexInRange(State())
    {
      this.product := product;
      this.allProducts := allProducts;
      currentImageIndex := 0;
    }

    /** `nextImage`, whatever the index was left at; the result always names an image. */
    method NextImage()
      requires |product.imageUrls| > 0
      modifies this`currentImageIndex
      ensures currentImageIndex < |product.imageUrls|
      ensures currentImageIndex == NextIndex(old(currentImageIndex), |product.imageUrls|)
      ensures HasControls(product) ==> State() == StepAsWritten(old(State()), NextClick)
    {
      currentImageIndex := (currentImageIndex + 1) % |product.imageUrls|;
    }

    /** `prevImage` */
    method PrevImage()
      requires |product.imageUrls| > 0
      modifies this`currentImageIndex
      ensures currentImageIndex < |product.imageUrls|
      ensures currentImageIndex == PrevIndex(old(currentImageIndex), |product.imageUrls|)
      ensures HasControls(product) ==> State() == StepAsWritten(old(State()), PrevClick)
    {
      currentImageIndex := (currentImageIndex - 1 + |product.imageUrls|) % |product.imageUrls|;
    }

    /** A click on one of the dots under the image. */
    method SelectImage(index: nat)
      requires index < |product.imageUrls|
      modifies this`currentImageIndex
      ensures currentImageIndex == index && IndexInRange(State())
      ensures HasControls(product) ==> State() == StepAsWritten(old(State()), DotClick(index))
    {
      currentImageIndex := index;
    }

    /** A click on a related card while the dialog is open: `handleProductClick` swaps the
        `product` prop of the mounted dialog, and `currentImageIndex` keeps its value. */
    method ViewProduct(p: Product)
      modifies this`product
      ensures product == p && currentImageIndex == old(currentImageIndex)
      ensures State() == StepAsWritten(old(State()), RelatedClick(p))
    {
      product := p;
    }

    /** The corrected product change: the carousel starts again at the first image, so the
        index is in range for the new product. */
    method ViewProductKeyed(p: Product)
      modifies this`product, this`currentImageIndex
      ensures product == p && currentImageIndex == 0 && IndexInRange(State())
      ensures State() == StepKeyed(old(State()), RelatedClick(p))
    {
      product := p;
      currentImageIndex := 0;
    }

    /** `relatedProducts`, recomputed for the product on show. */
    function Related(): (r: seq<Product>)
      reads this
      ensures |r| <= 6
      ensures forall q :: q in r ==> q in allProducts && q.id != product.id
    {
      RelatedProducts(allProducts, product)
    }
  }
}
