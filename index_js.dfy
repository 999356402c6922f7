/** The home page quiz script (petshop/static/js/index.js): a step machine
    through the quiz questions that collects the answers, the product request
    built from them, and the paging of the products found, three at a time. */
module IndexJs {
  const PageSize: nat := 3

  /** A product of the result list; the card rendering is left out. */
  datatype ProductCard = ProductCard(id: int, name: string)

  /** `allProducts.slice(start, start + 3)` with `start = page * 3`; `slice`
      clamps both ends to the list. */
  function PageItems(products: seq<ProductCard>, page: nat): (r: seq<ProductCard>)
    ensures |r| == (if page * PageSize >= |products| then 0
                    else if page * PageSize + PageSize <= |products| then PageSize
                    else |products| - page * PageSize)
    ensures forall i :: 0 <= i < |r| ==> r[i] == products[page * PageSize + i]
  {
    var start := page * PageSize;
    if start >= |products| then []
    else if start + PageSize <= |products| then products[start..start + PageSize]
    else products[start..]
  }

  /** Every product is shown on page `i / 3`, at place `i % 3`. */
  lemma ProductOnItsPage(products: seq<ProductCard>, i: nat)
    requires i < |products|
    ensures i % PageSize < |PageItems(products, i / PageSize)|
    ensures PageItems(products, i / PageSize)[i % PageSize] == products[i]
  {
    assert (i / PageSize) * PageSize + i % PageSize == i;
  }

  /** What `renderPage` shows: a "nothing found" block without paging for an
      empty list, otherwise the page's products and the two buttons' states. */
  datatype PageView =
    | NoProducts
    | Page(items: seq<ProductCard>, prevDisabled: bool, nextDisabled: bool)

  function RenderPage(products: seq<ProductCard>, page: nat): (v: PageView)
    ensures v.NoProducts? <==> products == []
    ensures v.Page? ==> v.items == PageItems(products, page)
    ensures v.Page? ==> (v.prevDisabled <==> page == 0)
    ensures v.Page? ==> (v.nextDisabled <==> page * PageSize + PageSize >= |products|)
  {
    if products == [] then NoProducts
    else Page(PageItems(products, page), page == 0, page * PageSize + PageSize >= |products|)
  }

  /** The names of the quiz answers sent with the product request, in order. */
  const QuizFields: seq<string> := ["species", "age", "category", "type", "purpose"]

  /** `xs` is `ys` with some elements left out and the rest in order. */
  predicate IsSubsequence(xs: seq<string>, ys: seq<string>)
    decreases |ys|
  {
    if xs == [] then true
    else if ys == [] then false
    else if xs[0] == ys[0] then IsSubsequence(xs[1..], ys[1..])
    else IsSubsequence(xs, ys[1..])
  }

  /** Leaving out the first of the kept elements keeps a subsequence. */
  lemma {:induction false} SubsequenceDropFirst(xs: seq<string>, ys: seq<string>)
    requires xs != [] && IsSubsequence(xs, ys)
    ensures IsSubsequence(xs[1..], ys)
    decreases |ys|, |xs|
  {
    if xs[0] != ys[0] {
      SubsequenceDropFirst(xs, ys[1..]);
    }
    SubsequenceOfTail(xs[1..], ys);
  }

  /** A subsequence of the tail is a subsequence of the whole. */
  lemma {:induction false} SubsequenceOfTail(xs: seq<string>, ys: seq<string>)
    requires ys != [] && IsSubsequence(xs, ys[1..])
    ensures IsSubsequence(xs, ys)
    decreases |ys|, |xs|
  {
    if xs != [] && xs[0] == ys[0] {
      SubsequenceDropFirst(xs, ys[1..]);
    }
  }

  /** The names of the parameters, in order. */
  function ParamNames(params: seq<(string, string)>): seq<string> {
    if params == [] then [] else [params[0].0] + ParamNames(params[1..])
  }

  /** The parameters `fetchProducts` appends: each of `fields` that has a
      non-empty answer, in the order of `fields`. */
  function QuizParams(fields: seq<string>, answers: map<string, string>): (r: seq<(string, string)>)
    ensures forall p :: p in r ==> p.0 in fields && p.0 in answers && answers[p.0] == p.1 && p.1 != ""
    ensures forall k :: k in fields && k in answers && answers[k] != "" ==> (k, answers[k]) in r
    ensures IsSubsequence(ParamNames(r), fields)
  {
    if fields == [] then []
    else
      var k := fields[0];
      var rest := QuizParams(fields[1..], answers);
      assert forall x :: x in fields <==> x == k || x in fields[1..];
      if k in answers && answers[k] != "" then
        var r := [(k, answers[k])] + rest;
        assert r[1..] == rest;
        r
      else
        SubsequenceOfTail(ParamNames(rest), fields);
        rest
  }

  predicate Distinct(names: seq<string>) {
    forall i, j :: 0 <= i < j < |names| ==> names[i] != names[j]
  }

  lemma DistinctTail(names: seq<string>)
    requires names != [] && Distinct(names)
    ensures Distinct(names[1..]) && names[0] !in names[1..]
  {
    forall i, j | 0 <= i < j < |names[1..]| ensures names[1..][i] != names[1..][j] {
      assert names[1..][i] == names[i + 1] && names[1..][j] == names[j + 1];
    }
    forall j | 0 <= j < |names[1..]| ensures names[1..][j] != names[0] {
      assert names[1..][j] == names[j + 1];
    }
  }

  /** A name not among the distinct names of `rest` keeps them distinct in front. */
  lemma DistinctCons(k: string, rest: seq<string>)
    requires Distinct(rest) && k !in rest
    ensures Distinct([k] + rest)
  {
    var r := [k] + rest;
    forall i, j | 0 <= i < j < |r| ensures r[i] != r[j] {
      assert r[j] == rest[j - 1];
      if i > 0 { assert r[i] == rest[i - 1]; }
    }
  }

  /** The names sent for a non-empty field list: the first field when it is
      answered, then the names for the rest. */
  lemma QuizParamsNames(fields: seq<string>, answers: map<string, string>)
    requires fields != []
    ensures var k := fields[0];
            ParamNames(QuizParams(fields, answers))
            == (if k in answers && answers[k] != "" then [k] else []) + ParamNames(QuizParams(fields[1..], answers))
  {
    var k := fields[0];
    var rest := QuizParams(fields[1..], answers);
    if k in answers && answers[k] != "" {
      assert QuizParams(fields, answers) == [(k, answers[k])] + rest;
      assert ([(k, answers[k])] + rest)[1..] == rest;
    }
  }

  /** Only the given fields are sent as names. */
  lemma {:induction false} NameOutsideFields(fields: seq<string>, answers: map<string, string>, k: string)
    requires k !in fields
    ensures k !in ParamNames(QuizParams(fields, answers))
  {
    if fields != [] {
      assert fields == [fields[0]] + fields[1..];
      NameOutsideFields(fields[1..], answers, k);
      QuizParamsNames(fields, answers);
    }
  }

  /** With distinct field names no parameter name is sent twice. */
  lemma {:induction false} QuizParamsDistinct(fields: seq<string>, answers: map<string, string>)
    requires Distinct(fields)
    ensures Distinct(ParamNames(QuizParams(fields, answers)))
  {
    if fields != [] {
      var k := fields[0];
      DistinctTail(fields);
      QuizParamsDistinct(fields[1..], answers);
      QuizParamsNames(fields, answers);
      if k in answers && answers[k] != "" {
        NameOutsideFields(fields[1..], answers, k);
        DistinctCons(k, ParamNames(QuizParams(fields[1..], answers)));
      }
    }
  }

  /** The quiz request never repeats a parameter, and sends its answers in
      the order of the quiz questions. */
  lemma QuizRequestParams(answers: map<string, string>)
    ensures Distinct(ParamNames(QuizParams(QuizFields, answers)))
    ensures IsSubsequence(ParamNames(QuizParams(QuizFields, answers)), QuizFields)
  {
    QuizParamsDistinct(QuizFields, answers);
  }

  /** The request has a query string exactly when some answer was given. */
  function ProductsUrl(answers: map<string, string>): (url: string)
    ensures QuizParams(QuizFields, answers) == [] ==> url == "/api/products/public/"
    ensures QuizParams(QuizFields, answers) != [] ==> |url| >= 22 && url[..22] == "/api/products/public/?"
  {
    var params := QuizParams(QuizFields, answers);
    if params == [] then "/api/products/public/" else "/api/products/public/?" + QueryString(params)
  }

  /** `URLSearchParams.toString`; percent-encoding is left out. */
  function QueryString(params: seq<(string, string)>): string
  {
    if params == [] then ""
    else
      var p := params[0].0 + "=" + params[0].1;
      if |params| == 1 then p else p + "&" + QueryString(params[1..])
  }

  /** The page state of the handlers. */
  class QuizPage {
    /** The number of `.quiz-step` blocks. */
    const totalSteps: nat
    var currentStep: nat
    var formData: map<string, string>
    var currentPage: nat
    var allProducts: seq<ProductCard>
    /** The product grid and its paging, shown or hidden. */
    var productsShown: bool
    /** What the last `renderPage` drew. */
    var view: PageView

    /** The step is one of the quiz's steps, and the page one that holds
        products. */
    predicate Valid()
      reads this
    {
      (currentStep < totalSteps || (totalSteps == 0 && currentStep == 0))
      && (allProducts != [] ==> currentPage * PageSize < |allProducts|)
      && (allProducts == [] ==> currentPage == 0)
    }

    constructor (steps: nat)
      ensures Valid()
      ensures totalSteps == steps && currentStep == 0 && formData == map[]
      ensures currentPage == 0 && allProducts == [] && !productsShown && view == NoProducts
    {
      totalSteps := steps;
      currentStep := 0;
      formData := map[];
      currentPage := 0;
      allProducts := [];
      productsShown := false;
      view := NoProducts;
    }

    /** The previous-page button. */
    method PrevPage()
      requires Valid()
      modifies this
      ensures Valid()
      ensures currentPage == (if old(currentPage) > 0 then old(currentPage) - 1 else old(currentPage))
      ensures old(currentPage) > 0 ==> view == RenderPage(allProducts, currentPage)
      ensures old(currentPage) == 0 ==> view == old(view)
      ensures allProducts == old(allProducts) && currentStep == old(currentStep)
      ensures formData == old(formData) && productsShown == old(productsShown)
    {
      if currentPage > 0 {
        currentPage := currentPage - 1;
        view := RenderPage(allProducts, currentPage);
      }
    }

    /** The next-page button. */
    method NextPage()
      requires Valid()
      modifies this
      ensures Valid()
      ensures currentPage == (if (old(currentPage) + 1) * PageSize < |allProducts|
                              then old(currentPage) + 1 else old(currentPage))
      ensures currentPage != old(currentPage) ==> view == RenderPage(allProducts, currentPage)
      ensures currentPage == old(currentPage) ==> view == old(view)
      ensures allProducts == old(allProducts) && currentStep == old(currentStep)
      ensures formData == old(formData) && productsShown == old(productsShown)
    {
      if (currentPage + 1) * PageSize < |allProducts| {
        currentPage := currentPage + 1;
        view := RenderPage(allProducts, currentPage);
      }
    }

    /** The request succeeded: its products replace the list and the first
        page is drawn. */
    method ProductsLoaded(data: seq<ProductCard>)
      requires Valid()
      modifies this
      ensures Valid()
      ensures allProducts == data && currentPage == 0 && view == RenderPage(data, 0)
      ensures currentStep == old(currentStep) && formData == old(formData)
      ensures productsShown == old(productsShown)
    {
      allProducts := data;
      currentPage := 0;
      view := RenderPage(allProducts, currentPage);
    }

    /** A click on an answer of step `stepIndex`: the answer is recorded; a
        step before the last advances, the last one asks for the products
        (`fetch`) and shows the grid. Only the current step's answers are
        visible, and clicking those keeps the step in range. */
    method ChooseOption(stepIndex: nat, name: string, value: string) returns (fetch: bool)
      requires Valid()
      requires stepIndex < totalSteps
      modifies this
      ensures formData == old(formData)[name := value]
      ensures !fetch <==> stepIndex < totalSteps - 1
      ensures !fetch ==> currentStep == old(currentStep) + 1 && productsShown == old(productsShown)
      ensures fetch ==> currentStep == old(currentStep) && productsShown
      ensures stepIndex == old(currentStep) ==> Valid()
      ensures currentPage == old(currentPage) && allProducts == old(allProducts) && view == old(view)
    {
      formData := formData[name := value];
      if stepIndex < totalSteps - 1 {
        currentStep := currentStep + 1;
        fetch := false;
      } else {
        productsShown := true;
        fetch := true;
      }
    }

    /** The back button: one step back, only above the first step; the
        products are hidden. */
    method Back()
      requires Valid()
      modifies this
      ensures Valid()
      ensures old(currentStep) > 0 ==> currentStep == old(currentStep) - 1 && !productsShown
      ensures old(currentStep) == 0 ==> currentStep == 0 && productsShown == old(productsShown)
      ensures formData == old(formData) && currentPage == old(currentPage)
      ensures allProducts == old(allProducts) && view == old(view)
    {
      if currentStep > 0 {
        currentStep := currentStep - 1;
        productsShown := false;
      }
    }

    /** `resetQuiz`: back to the first step with no answers, products hidden. */
    method ResetQuiz()
      requires Valid()
      modifies this
      ensures Valid()
      ensures currentStep == 0 && formData == map[] && !productsShown
      ensures currentPage == old(currentPage) && allProducts == old(allProducts) && view == old(view)
    {
      currentStep := 0;
      formData := map[];
      productsShown := false;
    }
  }

  /** A disabled button is exactly one whose click does nothing: the previous
      button on page 0, the next button when no product lies beyond the page. */
  lemma ButtonsMatchGuards(products: seq<ProductCard>, page: nat)
    requires products != []
    ensures RenderPage(products, page).prevDisabled <==> !(page > 0)
    ensures RenderPage(products, page).nextDisabled <==> !((page + 1) * PageSize < |products|)
  {
  }

  /** A page reached by the guarded clicks is never empty. */
  lemma ValidPageNotEmpty(products: seq<ProductCard>, page: nat)
    requires products != [] && page * PageSize < |products|
    ensures PageItems(products, page) != []
  {
  }
}
