/** An optional value: `None` stands for JavaScript's `undefined`
    (an absent array element, a `find` that matched nothing). */
module Options {

  datatype Option<+T> = None | Some(value: T)

}
