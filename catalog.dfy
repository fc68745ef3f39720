/**
 * The detector's static pattern catalog: the ordered selector lists and the
 * multilingual keyword list, exactly as the detector declares them.  Selector
 * strings are handed to the selector engine oracle; only their order matters
 * to the verified logic.
 */
module Catalog {

  /** Selectors that mark an add-to-cart control, in catalog order (utils/detector.js:9-62) */
  const ButtonSelectors: seq<string> := [
    "button[class*=\"add-to-cart\" i]",
    "button[class*=\"add-cart\" i]",
    "button[class*=\"addtocart\" i]",
    "button[class*=\"add-to-bag\" i]",
    "button[class*=\"addtobag\" i]",
    "button[class*=\"add-to-basket\" i]",
    "button[class*=\"buy-now\" i]",
    "button[class*=\"buynow\" i]",
    "button[class*=\"purchase\" i]",
    "button[class*=\"add-item\" i]",
    "button[id*=\"add-to-cart\" i]",
    "button[id*=\"addtocart\" i]",
    "button[id*=\"add-cart\" i]",
    "button[id*=\"buy-now\" i]",
    "button[data-action*=\"cart\" i]",
    "button[data-action*=\"add\" i]",
    "button[data-testid*=\"add-to-cart\" i]",
    "button[data-testid*=\"add-cart\" i]",
    "[data-add-to-cart]",
    "[data-cart-add]",
    "input[type=\"submit\"][value*=\"add to cart\" i]",
    "input[type=\"button\"][value*=\"add to cart\" i]",
    "a[class*=\"add-to-cart\" i]",
    "a[class*=\"add-cart\" i]",
    "[role=\"button\"][class*=\"cart\" i]",
    "[role=\"button\"][class*=\"add\" i]",
    "#add-to-cart-button",
    "[name=\"submit.add-to-cart\"]",
    "[name=\"add\"]",
    "button[type=\"submit\"][name=\"add\"]",
    ".product-form__submit",
    ".single_add_to_cart_button",
    ".add_to_cart_button",
    "#product-addtocart-button",
    ".tocart"
  ]

  /** Keywords, already lower-case, looked for in a control's text, in catalog order (utils/detector.js:75-156) */
  const CartKeywords: seq<string> := [
    "add to cart",
    "add to bag",
    "add to basket",
    "add item",
    "buy now",
    "purchase",
    "add now",
    "quick buy",
    "הוסף לסל",
    "הוספה לסל",
    "קנה עכשיו",
    "הוסף לעגלה",
    "רכישה",
    "הוסף",
    "añadir al carrito",
    "añadir al carro",
    "agregar al carrito",
    "comprar ahora",
    "ajouter au panier",
    "acheter maintenant",
    "ajouter",
    "in den warenkorb",
    "zum warenkorb",
    "jetzt kaufen",
    "aggiungi al carrello",
    "compra ora",
    "adicionar ao carrinho",
    "adicionar à sacola",
    "comprar agora",
    "добавить в корзину",
    "купить сейчас",
    "в корзину",
    "أضف إلى السلة",
    "اشتر الآن",
    "إضافة للسلة",
    "加入购物车",
    "添加到购物车",
    "立即购买",
    "加入",
    "カートに入れる",
    "カートに追加",
    "今すぐ購入",
    "장바구니에 추가",
    "장바구니",
    "구매하기",
    "toevoegen aan winkelwagen",
    "in winkelwagen",
    "dodaj do koszyka",
    "do koszyka",
    "sepete ekle",
    "hemen al"
  ]

  /** Class/id fragments that mark a product container (utils/detector.js:239) */
  const ContainerKeywords: seq<string> := [
    "product",
    "item",
    "card",
    "listing",
    "detail"
  ]

  /** Title selectors, tried in order (utils/detector.js:251-266) */
  const TitleSelectors: seq<string> := [
    "[itemprop=\"name\"]",
    "[class*=\"product-title\" i]",
    "[class*=\"product-name\" i]",
    "[class*=\"product_title\" i]",
    "[id*=\"product-title\" i]",
    "[data-testid*=\"product-title\" i]",
    "[data-testid*=\"product-name\" i]",
    "h1[class*=\"product\" i]",
    "h1[class*=\"title\" i]",
    "h1",
    "h2",
    ".product-name",
    "#product-name",
    ".title"
  ]

  /** Price selectors, scanned in order (utils/detector.js:335-379) */
  const PriceSelectors: seq<string> := [
    "[data-price]",
    "[data-product-price]",
    "[data-price-amount]",
    "[itemprop=\"price\"]",
    "[itemprop=\"priceCurrency\"]",
    "[class*=\"current-price\" i]",
    "[class*=\"sale-price\" i]",
    "[class*=\"final-price\" i]",
    "[class*=\"special-price\" i]",
    "[class*=\"offer-price\" i]",
    "[class*=\"price\" i]:not([class*=\"old\" i]):not([class*=\"was\" i]):not([class*=\"original\" i]):not([class*=\"regular\" i])",
    "span[class*=\"price\" i]",
    "div[class*=\"price\" i]",
    "p[class*=\"price\" i]",
    "strong[class*=\"price\" i]",
    "#price",
    "[id*=\"price\" i]",
    "[class*=\"cost\" i]",
    "[class*=\"amount\" i]",
    "[class*=\"value\" i]",
    ".product-price",
    ".price-box",
    ".price-container",
    ".price__amount",
    ".product__price",
    ".gl-price",
    "[aria-label*=\"price\" i]",
    "[title*=\"price\" i]"
  ]

  /** Image selectors, tried in order (utils/detector.js:525-536) */
  const ImageSelectors: seq<string> := [
    "img[itemprop=\"image\"]",
    "img[class*=\"product\" i]",
    "img[class*=\"main\" i]",
    "img[alt*=\"product\" i]",
    "[class*=\"product-image\" i] img",
    "[class*=\"product_image\" i] img",
    "[data-testid*=\"product-image\" i] img",
    ".product-image img",
    "#product-image img",
    "img"
  ]

  /** Quantity-control selectors, tried in order (utils/detector.js:567-576) */
  const QuantitySelectors: seq<string> := [
    "input[name=\"quantity\"]",
    "input[id=\"quantity\"]",
    "input[class*=\"quantity\" i]",
    "input[data-quantity]",
    "select[name=\"quantity\"]",
    "select[class*=\"quantity\" i]",
    "[class*=\"qty\" i] input",
    "input[type=\"number\"]"
  ]
}
