/**
 * The entity classes as live objects: a customer owns a set of carts, a cart
 * owns a set of orders, and each child keeps a back-reference to its parent.
 * The add / remove / bulk-set methods keep both sides of an association in
 * step; equality is by non-null id.
 *
 * Scalar fields are left to module Entities; here only the id and the
 * association fields matter.
 */
module Domain {
  import opened Wrappers
  import Entities

  /** Two entities of one type are equal when both ids are non-null and the same (object identity aside). */
  predicate SameId(a: Option<Entities.Id>, b: Option<Entities.Id>) {
    a.Some? && a == b
  }

  class CustomerDetails {
    var id: Option<Entities.Id>
    var carts: set<ShoppingCart>

    constructor (id: Option<Entities.Id>)
      ensures this.id == id && carts == {}
    {
      this.id := id;
      carts := {};
    }

    /** Java equals: the same object, or both ids non-null and the same. */
    predicate Equals(other: CustomerDetails)
      reads this, other
      ensures this != other && (id.None? || other.id.None?) ==> !Equals(other)
      ensures id.Some? && other.id.Some? ==> (Equals(other) <==> this == other || id == other.id)
    {
      this == other || SameId(id, other.id)
    }

    method SetId(id: Option<Entities.Id>)
      modifies this
      ensures this.id == id && carts == old(carts)
    {
      this.id := id;
    }

    /** Link `cart` to this customer. A previous owner of `cart` is not told. */
    method AddCart(cart: ShoppingCart, ghost customers: set<CustomerDetails>, ghost allCarts: set<ShoppingCart>)
      modifies this, cart
      ensures carts == old(carts) + {cart} && cart.customerDetails == this
      ensures id == old(id) && cart.id == old(cart.id) && cart.orders == old(cart.orders)
      ensures old(CartsLinked(customers, allCarts)) && this in customers && cart in allCarts
              && (old(cart.customerDetails) == null || old(cart.customerDetails) == this)
              ==> CartsLinked(customers, allCarts)
    {
      carts := carts + {cart};
      cart.customerDetails := this;
    }

    /** Unlink `cart`; its back-reference is cleared only if it points at this customer. */
    method RemoveCart(cart: ShoppingCart, ghost customers: set<CustomerDetails>, ghost allCarts: set<ShoppingCart>)
      modifies this, cart
      ensures carts == old(carts) - {cart}
      ensures cart.customerDetails == if old(cart.customerDetails) == this then null else old(cart.customerDetails)
      ensures id == old(id) && cart.id == old(cart.id) && cart.orders == old(cart.orders)
      ensures old(CartsLinked(customers, allCarts)) ==> CartsLinked(customers, allCarts)
    {
      carts := carts - {cart};
      if cart.customerDetails == this {
        cart.customerDetails := null;
      }
    }

    /** Replace the cart set by `s`: former members are unlinked, every member of `s` is linked. */
    method SetCarts(s: set<ShoppingCart>, ghost customers: set<CustomerDetails>, ghost allCarts: set<ShoppingCart>)
      modifies this, carts, s
      ensures carts == s && id == old(id)
      ensures forall c | c in s :: c.customerDetails == this
      ensures forall c | c in old(carts) && c !in s ::
        c.customerDetails == if old(c.customerDetails) == this then null else old(c.customerDetails)
      ensures forall c | c in old(carts) + s :: c.id == old(c.id) && c.orders == old(c.orders)
      ensures old(CartsLinked(customers, allCarts)) && this in customers && s <= allCarts
              && (forall c | c in s :: old(c.customerDetails) == null || old(c.customerDetails) == this)
              ==> CartsLinked(customers, allCarts)
    {
      var former := carts;
      var rest := former;
      while rest != {}
        invariant rest <= former && carts == former && id == old(id)
        invariant forall c | c in former - rest ::
          c.customerDetails == if old(c.customerDetails) == this then null else old(c.customerDetails)
        invariant forall c | c in rest || c in s - former :: c.customerDetails == old(c.customerDetails)
        invariant forall c | c in former + s :: c.id == old(c.id) && c.orders == old(c.orders)
        decreases rest
      {
        var c :| c in rest;
        if c.customerDetails == this {
          c.customerDetails := null;
        }
        rest := rest - {c};
      }
      rest := s;
      while rest != {}
        invariant rest <= s && carts == former && id == old(id)
        invariant forall c | c in s - rest :: c.customerDetails == this
        invariant forall c | c in former && (c in rest || c !in s) ::
          c.customerDetails == if old(c.customerDetails) == this then null else old(c.customerDetails)
        invariant forall c | c in rest - former :: c.customerDetails == old(c.customerDetails)
        invariant forall c | c in former + s :: c.id == old(c.id) && c.orders == old(c.orders)
        decreases rest
      {
        var c :| c in rest;
        c.customerDetails := this;
        rest := rest - {c};
      }
      carts := s;
    }

    /** The fluent form of SetCarts. */
    method WithCarts(s: set<ShoppingCart>, ghost customers: set<CustomerDetails>, ghost allCarts: set<ShoppingCart>)
      returns (self: CustomerDetails)
      modifies this, carts, s
      ensures self == this && carts == s && id == old(id)
      ensures forall c | c in s :: c.customerDetails == this
      ensures forall c | c in old(carts) && c !in s ::
        c.customerDetails == if old(c.customerDetails) == this then null else old(c.customerDetails)
      ensures forall c | c in old(carts) + s :: c.id == old(c.id) && c.orders == old(c.orders)
      ensures old(CartsLinked(customers, allCarts)) && this in customers && s <= allCarts
              && (forall c | c in s :: old(c.customerDetails) == null || old(c.customerDetails) == this)
              ==> CartsLinked(customers, allCarts)
    {
      SetCarts(s, customers, allCarts);
      self := this;
    }
  }

  class ShoppingCart {
    var id: Option<Entities.Id>
    var orders: set<ProductOrder>
    var customerDetails: CustomerDetails?

    constructor (id: Option<Entities.Id>)
      ensures this.id == id && orders == {} && customerDetails == null
    {
      this.id := id;
      orders := {};
      customerDetails := null;
    }

    /** Java equals: the same object, or both ids non-null and the same. */
    predicate Equals(other: ShoppingCart)
      reads this, other
      ensures this != other && (id.None? || other.id.None?) ==> !Equals(other)
      ensures id.Some? && other.id.Some? ==> (Equals(other) <==> this == other || id == other.id)
    {
      this == other || SameId(id, other.id)
    }

    method SetId(id: Option<Entities.Id>)
      modifies this
      ensures this.id == id && orders == old(orders) && customerDetails == old(customerDetails)
    {
      this.id := id;
    }

    /** Link `order` to this cart. A previous owner of `order` is not told. */
    method AddOrder(order: ProductOrder, ghost allCarts: set<ShoppingCart>, ghost allOrders: set<ProductOrder>)
      modifies this, order
      ensures orders == old(orders) + {order} && order.cart == this
      ensures id == old(id) && customerDetails == old(customerDetails) && order.id == old(order.id)
      ensures old(OrdersLinked(allCarts, allOrders)) && this in allCarts && order in allOrders
              && (old(order.cart) == null || old(order.cart) == this)
              ==> OrdersLinked(allCarts, allOrders)
    {
      orders := orders + {order};
      order.cart := this;
    }

    /** Unlink `order`; its back-reference is cleared only if it points at this cart. */
    method RemoveOrder(order: ProductOrder, ghost allCarts: set<ShoppingCart>, ghost allOrders: set<ProductOrder>)
      modifies this, order
      ensures orders == old(orders) - {order}
      ensures order.cart == if old(order.cart) == this then null else old(order.cart)
      ensures id == old(id) && customerDetails == old(customerDetails) && order.id == old(order.id)
      ensures old(OrdersLinked(allCarts, allOrders)) ==> OrdersLinked(allCarts, allOrders)
    {
      orders := orders - {order};
      if order.cart == this {
        order.cart := null;
      }
    }

    /** Replace the order set by `s`: former members are unlinked, every member of `s` is linked. */
    method SetOrders(s: set<ProductOrder>, ghost allCarts: set<ShoppingCart>, ghost allOrders: set<ProductOrder>)
      modifies this, orders, s
      ensures orders == s && id == old(id) && customerDetails == old(customerDetails)
      ensures forall o | o in s :: o.cart == this
      ensures forall o | o in old(orders) && o !in s :: o.cart == if old(o.cart) == this then null else old(o.cart)
      ensures forall o | o in old(orders) + s :: o.id == old(o.id)
      ensures old(OrdersLinked(allCarts, allOrders)) && this in allCarts && s <= allOrders
              && (forall o | o in s :: old(o.cart) == null || old(o.cart) == this)
              ==> OrdersLinked(allCarts, allOrders)
    {
      var former := orders;
      var rest := former;
      while rest != {}
        invariant rest <= former && orders == former && id == old(id) && customerDetails == old(customerDetails)
        invariant forall o | o in former - rest :: o.cart == if old(o.cart) == this then null else old(o.cart)
        invariant forall o | o in rest || o in s - former :: o.cart == old(o.cart)
        invariant forall o | o in former + s :: o.id == old(o.id)
        decreases rest
      {
        var o :| o in rest;
        if o.cart == this {
          o.cart := null;
        }
        rest := rest - {o};
      }
      rest := s;
      while rest != {}
        invariant rest <= s && orders == former && id == old(id) && customerDetails == old(customerDetails)
        invariant forall o | o in s - rest :: o.cart == this
        invariant forall o | o in former && (o in rest || o !in s) ::
          o.cart == if old(o.cart) == this then null else old(o.cart)
        invariant forall o | o in rest - former :: o.cart == old(o.cart)
        invariant forall o | o in former + s :: o.id == old(o.id)
        decreases rest
      {
        var o :| o in rest;
        o.cart := this;
        rest := rest - {o};
      }
      orders := s;
    }

    /** The fluent form of SetOrders. */
    method WithOrders(s: set<ProductOrder>, ghost allCarts: set<ShoppingCart>, ghost allOrders: set<ProductOrder>)
      returns (self: ShoppingCart)
      modifies this, orders, s
      ensures self == this && orders == s && id == old(id) && customerDetails == old(customerDetails)
      ensures forall o | o in s :: o.cart == this
      ensures forall o | o in old(orders) && o !in s :: o.cart == if old(o.cart) == this then null else old(o.cart)
      ensures forall o | o in old(orders) + s :: o.id == old(o.id)
      ensures old(OrdersLinked(allCarts, allOrders)) && this in allCarts && s <= allOrders
              && (forall o | o in s :: old(o.cart) == null || old(o.cart) == this)
              ==> OrdersLinked(allCarts, allOrders)
    {
      SetOrders(s, allCarts, allOrders);
      self := this;
    }

    /**
     * A plain reference assignment: no cart set of the old or the new customer
     * is touched, so the linked invariant survives exactly when the reference
     * does not change.
     */
    method SetCustomerDetails(c: CustomerDetails?, ghost customers: set<CustomerDetails>, ghost allCarts: set<ShoppingCart>)
      modifies this
      ensures customerDetails == c && id == old(id) && orders == old(orders)
      ensures old(CartsLinked(customers, allCarts)) && this in allCarts && (c == null || c in customers)
              ==> (CartsLinked(customers, allCarts) <==> c == old(customerDetails))
    {
      customerDetails := c;
    }

    /** The fluent form of SetCustomerDetails. */
    method WithCustomerDetails(c: CustomerDetails?, ghost customers: set<CustomerDetails>, ghost allCarts: set<ShoppingCart>)
      returns (self: ShoppingCart)
      modifies this
      ensures self == this && customerDetails == c && id == old(id) && orders == old(orders)
      ensures old(CartsLinked(customers, allCarts)) && this in allCarts && (c == null || c in customers)
              ==> (CartsLinked(customers, allCarts) <==> c == old(customerDetails))
    {
      SetCustomerDetails(c, customers, allCarts);
      self := this;
    }
  }

  class ProductOrder {
    var id: Option<Entities.Id>
    var cart: ShoppingCart?

    constructor (id: Option<Entities.Id>)
      ensures this.id == id && cart == null
    {
      this.id := id;
      cart := null;
    }

    /** Java equals: the same object, or both ids non-null and the same. */
    predicate Equals(other: ProductOrder)
      reads this, other
      ensures this != other && (id.None? || other.id.None?) ==> !Equals(other)
      ensures id.Some? && other.id.Some? ==> (Equals(other) <==> this == other || id == other.id)
    {
      this == other || SameId(id, other.id)
    }
  }

  /**
   * The bidirectional invariant over a closed set of customers and carts: a
   * cart is in a customer's set exactly when its back-reference is that customer.
   */
  ghost predicate CartsLinked(customers: set<CustomerDetails>, carts: set<ShoppingCart>)
    reads customers, carts
  {
    && (forall p | p in customers :: p.carts <= carts)
    && (forall c | c in carts && c.customerDetails != null :: c.customerDetails in customers)
    && (forall p, c | p in customers && c in carts :: c in p.carts <==> c.customerDetails == p)
  }

  /** The same invariant between carts and their orders. */
  ghost predicate OrdersLinked(carts: set<ShoppingCart>, orders: set<ProductOrder>)
    reads carts, orders
  {
    && (forall c | c in carts :: c.orders <= orders)
    && (forall o | o in orders && o.cart != null :: o.cart in carts)
    && (forall c, o | c in carts && o in orders :: o in c.orders <==> o.cart == c)
  }

  /** Equality is an equivalence, as the generated equalsVerifier checks. */
  lemma CartEqualsIsEquivalence(a: ShoppingCart, b: ShoppingCart, c: ShoppingCart)
    ensures a.Equals(a)
    ensures a.Equals(b) ==> b.Equals(a)
    ensures a.Equals(b) && b.Equals(c) ==> a.Equals(c)
  {
  }

  /** A customer without an id is equal to itself and to nothing else. */
  lemma CustomerWithoutIdEqualsOnlyItself(a: CustomerDetails, b: CustomerDetails)
    requires a.id.None?
    ensures a.Equals(b) <==> a == b
    ensures b.Equals(a) <==> a == b
  {
  }

  /** An order without an id is equal to itself and to nothing else. */
  lemma OrderWithoutIdEqualsOnlyItself(a: ProductOrder, b: ProductOrder)
    requires a.id.None?
    ensures a.Equals(b) <==> a == b
    ensures b.Equals(a) <==> a == b
  {
  }

  /** In a linked graph every cart is owned by at most one customer. */
  lemma CartsHaveOneOwner(customers: set<CustomerDetails>, carts: set<ShoppingCart>,
                            p: CustomerDetails, q: CustomerDetails, c: ShoppingCart)
    requires CartsLinked(customers, carts)
    requires p in customers && q in customers && c in carts
    requires c in p.carts && c in q.carts
    ensures p == q
  {
  }

  /** In a linked graph every order belongs to at most one cart. */
  lemma OrdersHaveOneCart(carts: set<ShoppingCart>, orders: set<ProductOrder>,
                           c: ShoppingCart, d: ShoppingCart, o: ProductOrder)
    requires OrdersLinked(carts, orders)
    requires c in carts && d in carts && o in orders
    requires o in c.orders && o in d.orders
    ensures c == d
  {
  }

  /** ShoppingCartTest.equalsVerifier: id-less differs, same id equal, different ids differ. */
  method CartEqualsVerifier() returns (withoutId: bool, sameId: bool, otherId: bool)
    ensures !withoutId && sameId && !otherId
  {
    var cart1 := new ShoppingCart(Some(1));
    var cart2 := new ShoppingCart(None);
    withoutId := cart1.Equals(cart2);
    cart2.SetId(cart1.id);
    sameId := cart1.Equals(cart2);
    cart2 := new ShoppingCart(Some(2));
    otherId := cart1.Equals(cart2);
  }

  /** CustomerDetailsTest.equalsVerifier. */
  method CustomerEqualsVerifier() returns (withoutId: bool, sameId: bool, otherId: bool)
    ensures !withoutId && sameId && !otherId
  {
    var customer1 := new CustomerDetails(Some(1));
    var customer2 := new CustomerDetails(None);
    withoutId := customer1.Equals(customer2);
    customer2.SetId(customer1.id);
    sameId := customer1.Equals(customer2);
    customer2 := new CustomerDetails(Some(2));
    otherId := customer1.Equals(customer2);
  }

  /** ShoppingCartTest.orderTest: add, remove, bulk set, bulk clear, with both sides checked after each step. */
  method OrderTest() returns (cart: ShoppingCart, order: ProductOrder)
    ensures cart.orders == {} && order.cart == null && OrdersLinked({cart}, {order})
  {
    cart := new ShoppingCart(Some(10));
    order := new ProductOrder(Some(20));
    assert OrdersLinked({cart}, {order});
    cart.AddOrder(order, {cart}, {order});
    assert cart.orders == {order} && order.cart == cart;
    cart.RemoveOrder(order, {cart}, {order});
    assert order !in cart.orders && order.cart == null;
    var self := cart.WithOrders({order}, {cart}, {order});
    assert cart.orders == {order} && order.cart == cart;
    cart.SetOrders({}, {cart}, {order});
    assert order !in cart.orders && order.cart == null;
  }

  /** ShoppingCartTest.customerDetailsTest: the singular reference is set and cleared, no cart set changes. */
  method CustomerReferenceTest() returns (cart: ShoppingCart, customer: CustomerDetails)
    ensures cart.customerDetails == null && customer.carts == {}
  {
    cart := new ShoppingCart(Some(10));
    customer := new CustomerDetails(Some(30));
    cart.SetCustomerDetails(customer, {customer}, {cart});
    assert cart.customerDetails == customer && customer.carts == {};
    var self := cart.WithCustomerDetails(null, {customer}, {cart});
  }

  /** CustomerDetailsTest.cartTest: the same sequence on the customer / cart association. */
  method CartTest() returns (customer: CustomerDetails, cart: ShoppingCart)
    ensures customer.carts == {} && cart.customerDetails == null && CartsLinked({customer}, {cart})
  {
    customer := new CustomerDetails(Some(30));
    cart := new ShoppingCart(Some(10));
    assert CartsLinked({customer}, {cart});
    customer.AddCart(cart, {customer}, {cart});
    assert customer.carts == {cart} && cart.customerDetails == customer;
    customer.RemoveCart(cart, {customer}, {cart});
    assert cart !in customer.carts && cart.customerDetails == null;
    var self := customer.WithCarts({cart}, {customer}, {cart});
    assert customer.carts == {cart} && cart.customerDetails == customer;
    customer.SetCarts({}, {customer}, {cart});
    assert cart !in customer.carts && cart.customerDetails == null;
  }
}
