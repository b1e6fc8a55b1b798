/** Issuing coupons for reviews (internal/biz/coupon.go, GrantUserCoupon in internal/data/repo/mysql_repo.go). */
module CouponIssue {
  import opened Wrappers
  import opened Entities
  import opened MapSum
  import Pricing

  // ---- scenes ----

  /** The scene arrives trimmed and in upper case; empty means that the review decides. */
  datatype GrantRequest = GrantRequest(user: Id, review: nat, scene: string, firstReview: bool, rating: int,
                                       hasImage: bool, key: string)

  const FIRST_REVIEW := "FIRST_REVIEW"
  const GOOD_REVIEW := "GOOD_REVIEW"
  const PHOTO_REVIEW := "PHOTO_REVIEW"
  const INVITE_NEW := "INVITE_NEW"
  const AFTER_SALE := "AFTER_SALE_COMPENSATION"

  datatype Template = Template(name: string, kind: int, value: nat, minAmount: nat, validDays: nat)

  predicate MatchCouponScene(scene: string, req: GrantRequest) {
    if scene == FIRST_REVIEW then req.firstReview
    else if scene == GOOD_REVIEW then req.rating >= 4
    else if scene == PHOTO_REVIEW then req.hasImage
    else scene == INVITE_NEW || scene == AFTER_SALE
  }

  function ResolveCouponScene(req: GrantRequest): Result<string, BizError> {
    if req.scene != "" then
      if MatchCouponScene(req.scene, req) then Success(req.scene) else Failure(CouponSceneInvalid)
    else if req.firstReview then Success(FIRST_REVIEW)
    else if req.rating >= 4 && req.hasImage then Success(PHOTO_REVIEW)
    else if req.rating >= 4 then Success(GOOD_REVIEW)
    else Failure(CouponSceneInvalid)
  }

  function CouponTemplateByScene(scene: string): Option<Template> {
    if scene == FIRST_REVIEW then Some(Template("首评送5元券", 1, 500, 0, 30))
    else if scene == GOOD_REVIEW then Some(Template("好评返95折券", 2, 95, 5000, 30))
    else if scene == PHOTO_REVIEW then Some(Template("晒图返3元券", 1, 300, 3000, 30))
    else if scene == INVITE_NEW then Some(Template("拉新10元券", 1, 1000, 0, 30))
    else if scene == AFTER_SALE then Some(Template("售后补偿20元券", 1, 2000, 0, 30))
    else None
  }

  /** A request is resolved exactly if its explicit scene fits the review, or with none the review earns one; what is
      resolved would also be accepted explicitly, has a template, and that template prices every order soundly. */
  lemma ResolvedScenesAreIssuable(req: GrantRequest, amount: nat)
    requires amount < TWO_TO_THE_64
    ensures ResolveCouponScene(req).Success? <==>
            if req.scene == "" then req.firstReview || req.rating >= 4 else MatchCouponScene(req.scene, req)
    ensures ResolveCouponScene(req).Success? ==>
              var scene := ResolveCouponScene(req).value;
              && MatchCouponScene(scene, req)
              && ResolveCouponScene(req.(scene := scene)) == Success(scene)
              && CouponTemplateByScene(scene).Some?
              && var t := CouponTemplateByScene(scene).value;
              && var discount := Pricing.Discount(t.kind, t.value, amount);
              && discount.Some? && discount.value <= amount
              && Pricing.Priced(amount, discount.value).finalAmount + discount.value == amount
  {
    if ResolveCouponScene(req).Success? {
      var t := CouponTemplateByScene(ResolveCouponScene(req).value).value;
      Pricing.MoneyAddsUp(t.kind, t.value, amount);
    }
  }

  /** Which coupon a review earns: the first one five yuan, else four stars and a picture three yuan, else four
      stars five per cent off; a scene may be named instead, if the review bears it out. Everybody who invites or is
      compensated gets theirs. */
  lemma CouponsEarned(req: GrantRequest)
    ensures req.scene == "" ==>
              ResolveCouponScene(req) ==
              if req.firstReview then Success("FIRST_REVIEW")
              else if req.rating >= 4 && req.hasImage then Success("PHOTO_REVIEW")
              else if req.rating >= 4 then Success("GOOD_REVIEW") else Failure(CouponSceneInvalid)
    ensures req.scene != "" ==>
              ResolveCouponScene(req) ==
              if (req.scene == "FIRST_REVIEW" && req.firstReview) || (req.scene == "GOOD_REVIEW" && req.rating >= 4)
                 || (req.scene == "PHOTO_REVIEW" && req.hasImage)
                 || req.scene == "INVITE_NEW" || req.scene == "AFTER_SALE_COMPENSATION"
              then Success(req.scene) else Failure(CouponSceneInvalid)
    ensures CouponTemplateByScene("FIRST_REVIEW") == Some(Template("首评送5元券", 1, 500, 0, 30))
    ensures CouponTemplateByScene("GOOD_REVIEW") == Some(Template("好评返95折券", 2, 95, 5000, 30))
    ensures CouponTemplateByScene("PHOTO_REVIEW") == Some(Template("晒图返3元券", 1, 300, 3000, 30))
    ensures CouponTemplateByScene("INVITE_NEW") == Some(Template("拉新10元券", 1, 1000, 0, 30))
    ensures CouponTemplateByScene("AFTER_SALE_COMPENSATION") == Some(Template("售后补偿20元券", 1, 2000, 0, 30))
  {
  }

  // ---- idempotency keys ----

  function Decimal(n: nat): string {
    (if n < 10 then [] else Decimal(n / 10)) + [('0' as int + n % 10) as char]
  }

  function Number(digits: string): int {
    if digits == [] then 0 else 10 * Number(digits[..|digits| - 1]) + (digits[|digits| - 1] as int - '0' as int)
  }

  predicate AllDigits(text: string) {
    forall i :: 0 <= i < |text| ==> '0' <= text[i] <= '9'
  }

  lemma {:induction false} DecimalRoundTrip(n: nat)
    ensures Number(Decimal(n)) == n && AllDigits(Decimal(n))
    decreases n
  {
    if n >= 10 {
      DecimalRoundTrip(n / 10);
      assert Decimal(n)[..|Decimal(n)| - 1] == Decimal(n / 10);
    }
  }

  /** The caller's key, or one made of the review and the scene. */
  function EffectiveKey(req: GrantRequest, scene: string): string {
    if req.key == "" then "review:" + (Decimal(req.review) + ":" + scene) else req.key
  }

  lemma {:induction false} SplitAtColon(a: string, b: string, x: string, y: string)
    requires AllDigits(a) && AllDigits(b) && a + ":" + x == b + ":" + y
    ensures a == b && x == y
    decreases |a|
  {
    var left, right := a + ":" + x, b + ":" + y;
    assert left[0] == (if a == "" then ':' else a[0]) && right[0] == (if b == "" then ':' else b[0]);
    if a == "" {
      assert left[1..] == x && right[1..] == y;
    } else {
      assert left[1..] == a[1..] + ":" + x && right[1..] == b[1..] + ":" + y;
      SplitAtColon(a[1..], b[1..], x, y);
      assert a == [a[0]] + a[1..] && b == [b[0]] + b[1..];
    }
  }

  lemma SamePrefix(p: string, a: string, b: string)
    requires p + a == p + b
    ensures a == b
  {
    assert (p + a)[|p|..] == a && (p + b)[|p|..] == b;
  }

  /** Default keys agree exactly when the review and the scene do; the user plays no part in them. */
  lemma DefaultKeysAgreeIff(a: GrantRequest, b: GrantRequest, scene: string, other: string)
    requires a.key == "" && b.key == ""
    ensures EffectiveKey(a, scene) == EffectiveKey(b, other) <==> a.review == b.review && scene == other
  {
    if EffectiveKey(a, scene) == EffectiveKey(b, other) {
      DecimalRoundTrip(a.review);
      DecimalRoundTrip(b.review);
      hide Decimal, AllDigits;
      SamePrefix("review:", Decimal(a.review) + ":" + scene, Decimal(b.review) + ":" + other);
      SplitAtColon(Decimal(a.review), Decimal(b.review), scene, other);
    }
  }

  /** For instance. */
  lemma DefaultKeyOf12()
    ensures EffectiveKey(GrantRequest(1, 12, "", false, 5, false, ""), "GOOD_REVIEW") == "review:12:GOOD_REVIEW"
    ensures EffectiveKey(GrantRequest(1, 12, "", false, 5, false, "mine"), "GOOD_REVIEW") == "mine"
  {
    assert Decimal(1) == "1" && Decimal(12) == "12";
  }

  // ---- the tables ----

  datatype TemplateRow = TemplateRow(template: Template, total: nat, remain: nat, version: nat)

  datatype UserCoupon = UserCoupon(user: Id, template: Id, scene: string, key: string, status: CouponStatus,
                                   expireTime: int)

  datatype Tables = Tables(templates: map<Id, TemplateRow>, coupons: map<Id, UserCoupon>, nextTemplate: Id,
                           nextCoupon: Id)

  const NEW_TEMPLATE_COUNT: nat := 100_000
  const DAY := 86_400

  /** The columns that identify a template row; validity is not stored with it. */
  predicate SameTemplate(a: Template, b: Template) {
    a.name == b.name && a.kind == b.kind && a.value == b.value && a.minAmount == b.minAmount
  }

  ghost predicate Issued(t: Tables, key: string) {
    exists c :: c in t.coupons && t.coupons[c].key == key
  }

  ghost predicate OnFile(t: Tables, template: Template) {
    exists i :: i in t.templates && SameTemplate(t.templates[i].template, template)
  }

  /** Per user coupon, one if it was issued from the template. */
  ghost function IssuedFrom(coupons: map<Id, UserCoupon>, template: Id): map<Id, int> {
    map c | c in coupons :: if coupons[c].template == template then 1 else 0
  }

  ghost function IssuedCount(t: Tables, template: Id): int {
    Sum(IssuedFrom(t.coupons, template))
  }

  /** Every template's remaining and issued coupons make up its total. */
  ghost predicate Conserved(t: Tables) {
    forall i :: i in t.templates ==> t.templates[i].remain + IssuedCount(t, i) == t.templates[i].total
  }

  ghost predicate KeysOk(coupons: map<Id, UserCoupon>) {
    forall a, b | a in coupons && b in coupons && a != b :: coupons[a].key != coupons[b].key
  }

  ghost predicate IdsOk(t: Tables) {
    && (forall i :: i in t.templates ==> i < t.nextTemplate)
    && (forall c :: c in t.coupons ==> c < t.nextCoupon && t.coupons[c].template in t.templates)
  }

  ghost predicate Inv(t: Tables) {
    Conserved(t) && KeysOk(t.coupons) && IdsOk(t)
  }

  /** What issuing one coupon from template row i changes. */
  function WithCoupon(t: Tables, i: Id, row: UserCoupon): Tables
    requires i in t.templates && t.templates[i].remain > 0
  {
    t.(templates := t.templates[i :=
    t.templates[i].(remain := t.templates[i].remain - 1, version := t.templates[i].version + 1)],
    coupons := t.coupons[t.nextCoupon := row], nextCoupon := t.nextCoupon + 1)
  }

  function WithTemplate(t: Tables, template: Template): Tables {
    t.(templates := t.templates[t.nextTemplate := TemplateRow(template, NEW_TEMPLATE_COUNT, NEW_TEMPLATE_COUNT, 0)],
    nextTemplate := t.nextTemplate + 1)
  }

  lemma IssuedPut(coupons: map<Id, UserCoupon>, c: Id, row: UserCoupon, i: Id)
    requires c !in coupons
    ensures Sum(IssuedFrom(coupons[c := row], i)) == Sum(IssuedFrom(coupons, i)) + (if row.template == i then 1 else 0)
  {
    var one := if row.template == i then 1 else 0;
    assert IssuedFrom(coupons[c := row], i) == IssuedFrom(coupons, i)[c := one];
    SumPut(IssuedFrom(coupons, i), c, one);
  }

  lemma NothingIssued(t: Tables, i: Id)
    requires forall c :: c in t.coupons ==> t.coupons[c].template != i
    ensures IssuedCount(t, i) == 0
  {
    var ones := IssuedFrom(t.coupons, i);
    SumDropZeros(ones, ones.Keys);
    assert ones - ones.Keys == map[];
  }

  lemma WithTemplateKeeps(t: Tables, template: Template)
    requires Inv(t)
    ensures Inv(WithTemplate(t, template))
  {
    var u := WithTemplate(t, template);
    NothingIssued(u, t.nextTemplate);
    forall i | i in t.templates
      ensures u.templates[i].remain + IssuedCount(u, i) == u.templates[i].total
    {
    }
  }

  lemma WithCouponKeeps(t: Tables, i: Id, row: UserCoupon)
    requires Inv(t) && i in t.templates && t.templates[i].remain > 0
    requires row.template == i && !Issued(t, row.key)
    ensures Inv(WithCoupon(t, i, row))
  {
    var u := WithCoupon(t, i, row);
    forall j | j in u.templates
      ensures u.templates[j].remain + IssuedCount(u, j) == u.templates[j].total
    {
      IssuedPut(t.coupons, t.nextCoupon, row, j);
    }
  }

  lemma SameIssued(t: Tables, u: Tables, key: string)
    requires t.coupons == u.coupons
    ensures Issued(t, key) <==> Issued(u, key)
  {
  }

  // ---- the operations ----

  datatype GrantAnswer = GrantAnswer(coupon: Id, duplicated: bool)

  /** One grant transaction with its answer. */
  datatype Grant = Grant(user: Id, scene: string, key: string, template: Template, now: int,
                         res: Result<GrantAnswer, BizError>)

  ghost function TemplateReady(t: Tables, template: Template): Tables {
    if OnFile(t, template) then t else WithTemplate(t, template)
  }

  function RowFor(g: Grant, i: Id): UserCoupon {
    UserCoupon(g.user, i, g.scene, g.key, Unused, g.now + g.template.validDays * DAY)
  }

  /** The grant takes the tables from t to u. A key that has been used answers with its coupon and changes nothing.
      Otherwise one coupon is issued from the template's row and counted off there; or, with none left, nothing
      happens. */
  ghost predicate Granted(t: Tables, g: Grant, u: Tables) {
    match g.res
    case Failure(e) => u == t && e == CouponInvalid && !Issued(t, g.key) && OnFile(t, g.template)
    case Success(GrantAnswer(c, true)) => u == t && c in t.coupons && t.coupons[c].key == g.key
    case Success(GrantAnswer(c, false)) =>
      && !Issued(t, g.key) && c == t.nextCoupon && c in u.coupons
      && var i, start := u.coupons[c].template, TemplateReady(t, g.template);
      && i in start.templates && SameTemplate(start.templates[i].template, g.template) && start.templates[i].remain > 0
      && u == WithCoupon(start, i, RowFor(g, i))
  }

  class CouponStore {
    var templates: map<Id, TemplateRow>
    var coupons: map<Id, UserCoupon>
    var nextTemplate: Id
    var nextCoupon: Id

    function Value(): Tables
      reads this
    {
      Tables(templates, coupons, nextTemplate, nextCoupon)
    }

    constructor (t: Tables)
      ensures Value() == t
    {
      templates, coupons, nextTemplate, nextCoupon := t.templates, t.coupons, t.nextTemplate, t.nextCoupon;
    }

    /** The coupon that carries the key, if any; the scan stands for the index lookup. */
    method FindByKey(key: string) returns (found: Option<Id>)
      ensures found.None? <==> !Issued(Value(), key)
      ensures found.Some? ==> found.value in coupons && coupons[found.value].key == key
    {
      var unseen := coupons.Keys;
      while unseen != {}
        invariant unseen <= coupons.Keys
        invariant forall c :: c in coupons && c !in unseen ==> coupons[c].key != key
        decreases unseen
      {
        var c :| c in unseen;
        if coupons[c].key == key {
          return Some(c);
        }
        unseen := unseen - {c};
      }
      found := None;
    }

    /** The template's row, created with a hundred thousand coupons if there is none. */
    method GetOrCreateCouponTemplate(template: Template) returns (i: Id)
      requires Inv(Value())
      modifies this`templates, this`nextTemplate
      ensures Inv(Value()) && i in templates && SameTemplate(templates[i].template, template)
      ensures Value() == if OnFile(old(Value()), template) then old(Value()) else WithTemplate(old(Value()), template)
      ensures !OnFile(old(Value()), template) ==> i == old(nextTemplate) && templates[i].remain == NEW_TEMPLATE_COUNT
    {
      var unseen := templates.Keys;
      while unseen != {}
        invariant unseen <= templates.Keys && Value() == old(Value())
        invariant forall j :: j in templates && j !in unseen ==> !SameTemplate(templates[j].template, template)
        decreases unseen
      {
        i :| i in unseen;
        if SameTemplate(templates[i].template, template) {
          return;
        }
        unseen := unseen - {i};
      }
      WithTemplateKeeps(Value(), template);
      i := nextTemplate;
      templates := templates[i := TemplateRow(template, NEW_TEMPLATE_COUNT, NEW_TEMPLATE_COUNT, 0)];
      nextTemplate := nextTemplate + 1;
    }

    /** GrantUserCoupon and the transaction around it. */
    method GrantUserCoupon(user: Id, scene: string, key: string, template: Template, now: int)
      returns (res: Result<GrantAnswer, BizError>)
      requires Inv(Value())
      modifies this
      ensures Inv(Value())
      ensures Granted(old(Value()), Grant(user, scene, key, template, now, res), Value())
    {
      hide Inv, Issued, OnFile, SameTemplate, WithTemplate;
      var begin := Value();
      var existing := FindByKey(key);
      if existing.Some? {
        return Success(GrantAnswer(existing.value, true));
      }
      var i := GetOrCreateCouponTemplate(template);
      var row := UserCoupon(user, i, scene, key, Unused, now + template.validDays * DAY);
      var c := nextCoupon;
      var r := templates[i];
      if r.remain == 0 {
        templates, coupons, nextTemplate, nextCoupon := begin.templates, begin.coupons, begin.nextTemplate,
                                                        begin.nextCoupon;
        return Failure(CouponInvalid);
      }
      SameIssued(begin, Value(), key);
      WithCouponKeeps(Value(), i, row);
      coupons := coupons[c := row];
      nextCoupon := nextCoupon + 1;
      templates := templates[i := r.(remain := r.remain - 1, version := r.version + 1)];
      return Success(GrantAnswer(c, false));
    }

    /** GrantCouponByReview: the scene is resolved, the key filled in, the scene's template looked up, a coupon
        granted. */
    method GrantCouponByReview(req: GrantRequest, now: int) returns (res: Result<GrantAnswer, BizError>)
      requires Inv(Value())
      modifies this
      ensures Inv(Value())
      ensures if req.user == 0 then res == Failure(UserNotMatch) && Value() == old(Value())
              else
                match ResolveCouponScene(req)
                case Failure(e) => res == Failure(e) && Value() == old(Value())
                case Success(scene) =>
                  && CouponTemplateByScene(scene).Some?
                  && Granted(old(Value()), GrantFor(req, scene, now, res), Value())
    {
      if req.user == 0 {
        return Failure(UserNotMatch);
      }
      ResolvedScenesAreIssuable(req, 0);
      var resolved := ResolveCouponScene(req);
      if resolved.Failure? {
        return Failure(resolved.error);
      }
      var scene := resolved.value;
      var template := CouponTemplateByScene(scene);
      if template == None {
        return Failure(CouponSceneInvalid);
      }
      res := GrantUserCoupon(req.user, scene, EffectiveKey(req, scene), template.value, now);
    }
  }

  function GrantFor(req: GrantRequest, scene: string, now: int, res: Result<GrantAnswer, BizError>): Grant
    requires CouponTemplateByScene(scene).Some?
  {
    Grant(req.user, scene, EffectiveKey(req, scene), CouponTemplateByScene(scene).value, now, res)
  }

  // ---- runs ----

  datatype Event =
    | GrantCoupon(g: Grant)
    | SetStatus(coupon: Id, status: CouponStatus)
    | AddTemplate(template: Template)

  ghost predicate Happens(t: Tables, event: Event, u: Tables) {
    match event
    case GrantCoupon(g) => Granted(t, g, u)
    case SetStatus(c, status) => c in t.coupons && u == t.(coupons := t.coupons[c := t.coupons[c].(status := status)])
    case AddTemplate(template) => u == WithTemplate(t, template)
  }

  ghost predicate History(states: seq<Tables>, events: seq<Event>) {
    && |states| == |events| + 1
    && forall i :: 0 <= i < |events| ==> Happens(states[i], events[i], states[i + 1])
  }

  /** No coupons issued yet, every template's stock complete. */
  ghost predicate Opening(t: Tables) {
    t.coupons == map[] && IdsOk(t) && forall i :: i in t.templates ==> t.templates[i].remain == t.templates[i].total
  }

  lemma OpeningInv(t: Tables)
    requires Opening(t)
    ensures Inv(t)
  {
    forall i | i in t.templates
      ensures IssuedCount(t, i) == 0
    {
      NothingIssued(t, i);
    }
  }

  /** A coupon granted for the first time: it is its requester's, unused, good for the template's days of 86400
      seconds, and taken off the row of its template; a row made for it starts with a hundred thousand. */
  lemma GrantedIs(t: Tables, g: Grant, u: Tables)
    requires IdsOk(t) && Granted(t, g, u) && g.res.Success? && !g.res.value.duplicated
    ensures g.res.value.coupon in u.coupons
    ensures var row := u.coupons[g.res.value.coupon];
            && row.user == g.user && row.scene == g.scene && row.key == g.key && row.status == Unused
            && row.expireTime == g.now + 86_400 * g.template.validDays
            && row.template in u.templates
            && var made := u.templates[row.template];
            && made.template.name == g.template.name && made.template.kind == g.template.kind
            && made.template.value == g.template.value && made.template.minAmount == g.template.minAmount
            && (row.template in t.templates ==>
                  && made.remain == t.templates[row.template].remain - 1
                  && made.total == t.templates[row.template].total
                  && made.version == t.templates[row.template].version + 1)
            && (row.template !in t.templates ==> made.total == 100_000 && made.remain == 99_999)
            && ((exists i :: i in t.templates && t.templates[i].template.name == g.template.name
                             && t.templates[i].template.kind == g.template.kind
                             && t.templates[i].template.value == g.template.value
                             && t.templates[i].template.minAmount == g.template.minAmount)
                ==> row.template in t.templates)
  {
  }

  lemma GrantedKeeps(t: Tables, g: Grant, u: Tables)
    requires Inv(t) && Granted(t, g, u)
    ensures Inv(u)
  {
    hide Inv;
    if g.res.Success? && !g.res.value.duplicated {
      var i, start := u.coupons[g.res.value.coupon].template, TemplateReady(t, g.template);
      WithTemplateKeeps(t, g.template);
      SameIssued(t, start, g.key);
      WithCouponKeeps(start, i, RowFor(g, i));
    }
  }

  lemma StatusIssues(coupons: map<Id, UserCoupon>, c: Id, status: CouponStatus, i: Id)
    requires c in coupons
    ensures IssuedFrom(coupons[c := coupons[c].(status := status)], i) == IssuedFrom(coupons, i)
  {
  }

  lemma StatusKeeps(t: Tables, c: Id, status: CouponStatus)
    requires Inv(t) && c in t.coupons
    ensures Inv(t.(coupons := t.coupons[c := t.coupons[c].(status := status)]))
  {
    hide IssuedFrom;
    var u := t.(coupons := t.coupons[c := t.coupons[c].(status := status)]);
    forall i | i in t.templates
      ensures u.templates[i].remain + IssuedCount(u, i) == u.templates[i].total
    {
      StatusIssues(t.coupons, c, status, i);
    }
    assert KeysOk(u.coupons);
  }

  lemma EventKeeps(t: Tables, event: Event, u: Tables)
    requires Inv(t) && Happens(t, event, u)
    ensures Inv(u)
  {
    hide Inv;
    match event
    case GrantCoupon(g) => GrantedKeeps(t, g, u);
    case SetStatus(c, status) => StatusKeeps(t, c, status);
    case AddTemplate(template) => WithTemplateKeeps(t, template);
  }

  lemma {:induction false} HistoryKeeps(states: seq<Tables>, events: seq<Event>, i: nat)
    requires History(states, events) && Inv(states[0]) && i <= |events|
    ensures Inv(states[i])
    decreases i
  {
    hide Inv;
    if i > 0 {
      HistoryKeeps(states, events, i - 1);
      EventKeeps(states[i - 1], events[i - 1], states[i]);
    }
  }

  /** No template is ever overdrawn: at every point of every history, what remains and what has been issued make up
      its total. */
  lemma TemplatesAreNeverOverdrawn(states: seq<Tables>, events: seq<Event>, i: nat, template: Id)
    requires History(states, events) && Opening(states[0]) && i <= |events| && template in states[i].templates
    ensures states[i].templates[template].remain + IssuedCount(states[i], template)
         == states[i].templates[template].total
    ensures 0 <= IssuedCount(states[i], template) <= states[i].templates[template].total
  {
    OpeningInv(states[0]);
    HistoryKeeps(states, events, i);
    SumNonNegative(IssuedFrom(states[i].coupons, template));
  }

  /** An issued coupon keeps everything but its status. */
  ghost predicate SameCoupon(t: Tables, u: Tables, c: Id) {
    c in t.coupons ==> c in u.coupons && u.coupons[c] == t.coupons[c].(status := u.coupons[c].status)
  }

  lemma EventKeepsCoupon(t: Tables, event: Event, u: Tables, c: Id)
    requires IdsOk(t) && Happens(t, event, u)
    ensures SameCoupon(t, u, c)
  {
  }

  lemma {:induction false} CouponsLast(states: seq<Tables>, events: seq<Event>, i: nat, j: nat, c: Id)
    requires History(states, events) && Inv(states[0]) && i <= j <= |events|
    ensures SameCoupon(states[i], states[j], c)
    decreases j
  {
    hide Inv, Happens;
    if i < j {
      CouponsLast(states, events, i, j - 1, c);
      HistoryKeeps(states, events, j - 1);
      assert IdsOk(states[j - 1]) by {
        InvIds(states[j - 1]);
      }
      EventKeepsCoupon(states[j - 1], events[j - 1], states[j], c);
    }
  }

  lemma InvIds(t: Tables)
    requires Inv(t)
    ensures IdsOk(t) && KeysOk(t.coupons)
  {
  }

  /** However many grants carry one key, in whatever history: after the first that succeeds every other one is
      answered as a duplicate with that same coupon, still the first requester's, and changes nothing. */
  lemma OneCouponPerKey(states: seq<Tables>, events: seq<Event>, i: nat, j: nat, a: Grant, b: Grant)
    requires History(states, events) && Opening(states[0]) && i < j < |events|
    requires events[i] == GrantCoupon(a) && events[j] == GrantCoupon(b) && a.key == b.key && a.res.Success?
    ensures b.res == Success(GrantAnswer(a.res.value.coupon, true)) && states[j + 1] == states[j]
    ensures var c := a.res.value.coupon;
            && c in states[j].coupons && c in states[i + 1].coupons
            && states[j].coupons[c].user == states[i + 1].coupons[c].user
            && (!a.res.value.duplicated ==> states[j].coupons[c].user == a.user)
  {
    var c := a.res.value.coupon;
    OpeningInv(states[0]);
    HistoryKeeps(states, events, j);
    InvIds(states[j]);
    CouponsLast(states, events, i + 1, j, c);
    assert Happens(states[i], events[i], states[i + 1]);
    assert Happens(states[j], events[j], states[j + 1]);
    GrantedKey(states[i], a, states[i + 1]);
    SecondGrant(states[j], b, states[j + 1], c);
  }

  lemma GrantedKey(t: Tables, g: Grant, u: Tables)
    requires Granted(t, g, u) && g.res.Success?
    ensures var c := g.res.value.coupon;
            c in u.coupons && u.coupons[c].key == g.key && (!g.res.value.duplicated ==> u.coupons[c].user == g.user)
  {
  }

  lemma SecondGrant(t: Tables, g: Grant, u: Tables, c: Id)
    requires KeysOk(t.coupons) && Granted(t, g, u) && c in t.coupons && t.coupons[c].key == g.key
    ensures g.res == Success(GrantAnswer(c, true)) && u == t
  {
    assert Issued(t, g.key);
  }

  /** What follows for invitations without a review and without a key of their own: all users share one key, so the
      second inviter is told "duplicated" and shown a coupon that belongs to the first. */
  lemma InvitersShareOneCoupon(states: seq<Tables>, events: seq<Event>, i: nat, j: nat, a: GrantRequest,
                               b: GrantRequest,
                               now: int, later: int, first: GrantAnswer, second: Result<GrantAnswer, BizError>)
    requires History(states, events) && Opening(states[0]) && i < j < |events|
    requires a.key == b.key == "" && a.review == b.review == 0 && a.user != b.user && !first.duplicated
    requires events[i] == GrantCoupon(GrantFor(a, INVITE_NEW, now, Success(first)))
    requires events[j] == GrantCoupon(GrantFor(b, INVITE_NEW, later, second))
    ensures second == Success(GrantAnswer(first.coupon, true))
    ensures first.coupon in states[j].coupons && states[j].coupons[first.coupon].user == a.user != b.user
  {
    DefaultKeysAgreeIff(a, b, INVITE_NEW, INVITE_NEW);
    OneCouponPerKey(states, events, i, j, GrantFor(a, INVITE_NEW, now, Success(first)),
                    GrantFor(b, INVITE_NEW, later, second));
  }
}
