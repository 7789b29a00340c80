/**
 * The filter slice (src/store/slices/filterSlice.ts): six nullable filters, one
 * setter each, and a reset. `None` stands for `null`; prices are integers and the
 * rating a real.
 */
module FilterSlice {
  import opened Wrappers

  datatype SortOption = PriceAsc | PriceDesc | RatingDesc | RatingAsc

  /** The six filters as one value, to compare states before and after a reducer. */
  datatype FilterState = FilterState(
    category: Option<string>,
    priceMin: Option<int>,
    priceMax: Option<int>,
    rating: Option<real>,
    sort: Option<SortOption>,
    distance: Option<string>)

  /** `initialState`: every filter null. */
  const Initial := FilterState(None, None, None, None, None, None)

  class Filters {
    var category: Option<string>
    var priceMin: Option<int>
    var priceMax: Option<int>
    var rating: Option<real>
    var sort: Option<SortOption>
    var distance: Option<string>

    ghost function State(): FilterState
      reads this
    {
      FilterState(category, priceMin, priceMax, rating, sort, distance)
    }

    /** `initialState`. */
    constructor ()
      ensures State() == Initial
    {
      category, priceMin, priceMax, rating, sort, distance := None, None, None, None, None, None;
    }

    /** `setCategory`: writes only `category`. */
    method SetCategory(value: Option<string>)
      modifies this`category
      ensures State() == old(State()).(category := value)
    {
      category := value;
    }

    /** `setPriceMin`: writes only `priceMin`. */
    method SetPriceMin(value: Option<int>)
      modifies this`priceMin
      ensures State() == old(State()).(priceMin := value)
    {
      priceMin := value;
    }

    /** `setPriceMax`: writes only `priceMax`. */
    method SetPriceMax(value: Option<int>)
      modifies this`priceMax
      ensures State() == old(State()).(priceMax := value)
    {
      priceMax := value;
    }

    /** `setRating`: writes only `rating`. */
    method SetRating(value: Option<real>)
      modifies this`rating
      ensures State() == old(State()).(rating := value)
    {
      rating := value;
    }

    /** `setSort`: writes only `sort`. */
    method SetSort(value: Option<SortOption>)
      modifies this`sort
      ensures State() == old(State()).(sort := value)
    {
      sort := value;
    }

    /** `setDistance`: writes only `distance`. */
    method SetDistance(value: Option<string>)
      modifies this`distance
      ensures State() == old(State()).(distance := value)
    {
      distance := value;
    }

    /** `resetFilters`: back to `initialState` from any state. */
    method ResetFilters()
      modifies this
      ensures State() == Initial
    {
      category, priceMin, priceMax, rating, sort, distance := None, None, None, None, None, None;
    }
  }

  /** Setting a filter twice with the same payload is setting it once. */
  method SetCategoryTwice(f: Filters, value: Option<string>)
    modifies f`category
    ensures f.State() == old(f.State()).(category := value)
  {
    f.SetCategory(value);
    f.SetCategory(value);
  }

  /** The same for the price bounds and the sort order, and `null` clears what it sets. */
  method SetPricesAndSortTwice(f: Filters, priceMin: Option<int>, priceMax: Option<int>, sort: Option<SortOption>)
    modifies f`priceMin, f`priceMax, f`sort
    ensures f.State() == old(f.State()).(priceMin := priceMin, priceMax := priceMax, sort := sort)
    ensures priceMin == None ==> f.priceMin == None
  {
    f.SetPriceMin(priceMin);
    f.SetPriceMax(priceMax);
    f.SetSort(sort);
    f.SetPriceMin(priceMin);
    f.SetPriceMax(priceMax);
    f.SetSort(sort);
  }

  /** The same for the rating and the distance. */
  method SetRatingAndDistanceTwice(f: Filters, rating: Option<real>, distance: Option<string>)
    modifies f`rating, f`distance
    ensures f.State() == old(f.State()).(rating := rating, distance := distance)
  {
    f.SetRating(rating);
    f.SetDistance(distance);
    f.SetRating(rating);
    f.SetDistance(distance);
  }
}
