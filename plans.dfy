/** The two service plans, `'mini' | 'pro'` in the source's type annotations. */
module Plans {

  datatype Plan = Mini | Pro
}
