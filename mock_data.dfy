/** The fixtures of src/data/mockData.ts: the catalogue, the extras, the store settings and
    the two coupons the checkout dialog accepts. */
module MockData {
  import opened Types

  /** `mockProducts`: four burgers, two sides and two drinks. */
  const Products: seq<Product> := [
    Product("1", "Classic Burger",
      Some("Hamb\U{FA}rguer artesanal 180g, queijo cheddar, alface, tomate e molho especial"),
      28.9, "Burgers", Some("https://images.unsplash.com/photo-1568901346375-23c9450c58cd?w=400"), true),
    Product("2", "Bacon Lovers",
      Some("Hamb\U{FA}rguer artesanal 180g, bacon crocante, cheddar, cebola caramelizada"),
      34.9, "Burgers", Some("https://images.unsplash.com/photo-1553979459-d2229ba7433b?w=400"), true),
    Product("3", "Smash Duplo",
      Some("Dois hamb\U{FA}rgueres smash 90g, queijo americano, picles e molho da casa"),
      32.9, "Burgers", Some("https://images.unsplash.com/photo-1586190848861-99aa4a171e90?w=400"), true),
    Product("4", "Veggie Burger",
      Some("Hamb\U{FA}rguer de gr\U{E3}o de bico, queijo mussarela, r\U{FA}cula e maionese verde"),
      29.9, "Burgers", Some("https://images.unsplash.com/photo-1520072959219-c595dc870360?w=400"), true),
    Product("5", "Batata Frita", Some("Por\U{E7}\U{E3}o generosa de batatas fritas crocantes"),
      14.9, "Acompanhamentos", Some("https://images.unsplash.com/photo-1573080496219-bb080dd4f877?w=400"), true),
    Product("6", "Onion Rings", Some("An\U{E9}is de cebola empanados e crocantes"),
      16.9, "Acompanhamentos", Some("https://images.unsplash.com/photo-1639024471283-03518883512d?w=400"), true),
    Product("7", "Coca-Cola 350ml", Some("Refrigerante gelado"),
      6.9, "Bebidas", Some("https://images.unsplash.com/photo-1629203851122-3726ecdf080e?w=400"), true),
    Product("8", "Milkshake", Some("Milkshake cremoso (Chocolate, Morango ou Baunilha)"),
      18.9, "Bebidas", Some("https://images.unsplash.com/photo-1572490122747-3968b75cc699?w=400"), true)
  ]

  /** `mockAdditionals`. */
  const Additionals: seq<Additional> := [
    Additional("1", "Bacon extra", 5.0),
    Additional("2", "Queijo cheddar", 4.0),
    Additional("3", "Ovo", 3.0),
    Additional("4", "Cebola caramelizada", 3.5),
    Additional("5", "Molho especial", 2.0)
  ]

  /** `mockStoreSettings`; the fixture gives no `id`, so it is the empty string here. */
  const Settings: StoreSettings := StoreSettings("", "Central Burger", "5511999999999", 8.0, true, "18:00 - 23:00")

  /** The first-order coupon: ten percent off the subtotal. */
  const FirstOrder: Coupon := Coupon("1", "PRIMEIRO10", 10.0, "percentage", true)

  /** The free-delivery coupon: a flat 8 off. */
  const FreeDelivery: Coupon := Coupon("2", "FRETE", 8.0, "fixed", true)

  /** `mockCoupons`. */
  const Coupons: seq<Coupon> := [FirstOrder, FreeDelivery]
}
