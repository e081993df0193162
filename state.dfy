/** The records this contract stores and the tables that hold them. */
module State {
  import opened Host
  import opened Cw721

  /** ISCC data derived from the media asset. */
  datatype IsccData = IsccData(tokenId: string, isccCode: string, tophash: string)

  /** The licensing terms of a token: where the license text lives and its price. */
  datatype Licensing = Licensing(tokenId: string, url: string, price: Coin)

  /** A purchased license. */
  datatype License = License(tokenId: string, licensee: Addr, price: Coin)

  /** The composite key (licensee, token id) of the `LICENSE` table. */
  datatype LicenseKey = LicenseKey(licensee: Addr, tokenId: string)

  /** A read-only view of the whole storage: the cw721-base tables (`tokens`,
      the token counter, `OPERATORS`, `CONTRACT_INFO`) and the four tables of
      this contract (`ISCC_DATA`, `ISCC`, `LICENSING`, `LICENSE`). Each table
      is a separate map; `operators` maps an owner to its operators and their
      expirations. */
  datatype Tables = Tables(
    tokens: map<string, TokenInfo>,
    numTokens: nat,
    isccData: map<string, IsccData>,
    iscc: map<string, string>,
    licensing: map<string, Licensing>,
    license: map<LicenseKey, License>,
    operators: map<Addr, map<Addr, Expiration>>,
    contractInfo: ContractInfo)

  /** The storage right after instantiation. */
  function Instantiated(info: ContractInfo): Tables {
    Tables(map[], 0, map[], map[], map[], map[], map[], info)
  }
}
