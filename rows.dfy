/**
 * The rows the four fixed join queries return, column for column.
 * Dates and timestamps are whole numbers (a day number, seconds since the
 * epoch); money columns are exact reals; `None` stands for a database NULL
 * or a value that the dashboard's numeric coercion turns into "missing".
 */
module Rows {
  import opened Wrappers

  /** customers: (customer_id, name, email, phone, address, birthdate). */
  datatype CustomerRecord = CustomerRecord(
    customerId: int, name: string, email: string, phone: string, address: string,
    birthDay: Option<int>)

  /** products: (product_id, name, description, price, stock). */
  datatype ProductRecord = ProductRecord(
    productId: int, name: string, description: string,
    price: Option<real>, stock: Option<int>)

  /** orders joined with customers: (order_id, order_date, total_amount, customer_name, phone). */
  datatype OrderRecord = OrderRecord(
    orderId: int, orderTime: int, totalAmount: Option<real>, customerName: string, phone: string)

  /** order_details joined with orders, customers and products, one row per line item. */
  datatype OrderDetailRecord = OrderDetailRecord(
    orderDetailId: int, orderId: int, orderTime: int,
    customerId: int, customerName: string,
    productId: int, productName: string, unitPrice: Option<real>,
    quantity: Option<int>, subtotal: Option<real>, orderTotal: Option<real>,
    phone: string)

  /** The calendar day of a timestamp (`.dt.date`): seconds floored to whole days. */
  function Day(time: int): (d: int)
    ensures d * 86400 <= time < (d + 1) * 86400
  {
    time / 86400
  }
}
